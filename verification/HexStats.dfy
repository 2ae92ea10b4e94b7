/**
 * Learned travel speeds: finished trips aggregated per pair of hexagons and hour, stored as averaged rows, loaded
 * back with an all-hours entry per pair, and looked up from fine to coarse. Exact reals stand for the numbers.
 */
module HexStats {
  import opened JsMath
  import opened Collections

  const MIN_KMH: real := 3.0
  const MAX_KMH: real := 80.0

  /** A hexagon carries its resolution. */
  datatype Cell = Cell(res: int, id: string)

  datatype Hour = At(h: int) | AllHours

  /** `from|to|hour`, the key of the speed table. */
  datatype Key = Key(from: Cell, to: Cell, hour: Hour)

  /** A finished trip: the km driven, the minutes taken, the hour it started and its end cells at resolution 9. */
  datatype Trip = Trip(km: real, minutes: real, hour: int, from9: Cell, to9: Cell)

  datatype Acc = Acc(n: nat, km: real, minutes: real)

  datatype Row = Row(from: Cell, to: Cell, hour: int, trips: nat, avgSpeedKmh: real, avgDurationMin: real)

  datatype Entry = Entry(trips: nat, speed: real)

  const HEX_STAT_RES: seq<int> := [9, 8, 7]

  predicate IsRes(res: int) { res == 9 || res == 8 || res == 7 }

  /** IST hour of a UTC time of day. */
  function IstHour(utcHours: int, utcMinutes: int): (h: int)
    requires 0 <= utcHours < 24 && 0 <= utcMinutes < 60
    ensures 0 <= h < 24 && h == (utcHours * 60 + utcMinutes + 330) / 60 % 24
  {
    (utcHours + 5 + (if utcMinutes + 30 >= 60 then 1 else 0)) % 24
  }

  /** A trip as stored: the distance driven when it was measured, else the quoted one, and epoch milliseconds. */
  datatype StoredTrip = StoredTrip(distanceKm: real, actualDistanceM: Option<real>, startedAt: int, endedAt: int, from9: Cell, to9: Cell)

  function TripOf(s: StoredTrip): Trip {
    Trip(if s.actualDistanceM.Some? then s.actualDistanceM.value / 1000.0 else s.distanceKm,
         (s.endedAt - s.startedAt) as real / 60000.0,
         IstHour(s.startedAt / 3_600_000 % 24, s.startedAt / 60_000 % 60),
         s.from9, s.to9)
  }

  function TripsOf(stored: seq<StoredTrip>): (trips: seq<Trip>)
    ensures |trips| == |stored|
  {
    seq(|stored|, i requires 0 <= i < |stored| => TripOf(stored[i]))
  }

  predicate Usable(t: Trip) {
    t.minutes > 0.0 && MIN_KMH <= t.km / (t.minutes / 60.0) <= MAX_KMH
  }

  function CellIn(parent: (Cell, int) -> Cell, c: Cell, res: int): Cell {
    if res == HEX_STAT_RES[0] then c else parent(c, res)
  }

  /** Where a trip counts at one resolution. */
  function TripKey(parent: (Cell, int) -> Cell, t: Trip, res: int): Key {
    Key(CellIn(parent, t.from9, res), CellIn(parent, t.to9, res), At(t.hour))
  }

  /** Cells know their resolution: 9 for a trip's ends, the asked one for a parent. */
  ghost predicate GridOk(parent: (Cell, int) -> Cell, trips: seq<Trip>) {
    && (forall c, r {:trigger parent(c, r)} :: parent(c, r).res == r)
    && (forall i | 0 <= i < |trips| :: trips[i].from9.res == 9 && trips[i].to9.res == 9)
  }

  const Zero: Acc := Acc(0, 0.0, 0.0)

  function Plus(a: Acc, b: Acc): Acc { Acc(a.n + b.n, a.km + b.km, a.minutes + b.minutes) }

  // ------------------------------------------------------------------------------ direct aggregation over trips

  /** One usable trip, counted for one key. */
  datatype Obs = Obs(key: Key, km: real, minutes: real)

  function AccOf(o: Obs): Acc { Acc(1, o.km, o.minutes) }

  /** What one trip is counted for: nothing, or one key per resolution. */
  function TripObs(parent: (Cell, int) -> Cell, t: Trip): seq<Obs> {
    if Usable(t) then AtEachRes(parent, t) else []
  }

  function AtEachRes(parent: (Cell, int) -> Cell, t: Trip): seq<Obs> {
    [ObsAt(parent, t, 9)] + [ObsAt(parent, t, 8)] + [ObsAt(parent, t, 7)]
  }

  function ObsAt(parent: (Cell, int) -> Cell, t: Trip, res: int): Obs { Obs(TripKey(parent, t, res), t.km, t.minutes) }

  function AllObs(parent: (Cell, int) -> Cell, trips: seq<Trip>): seq<Obs> {
    if trips == [] then [] else AllObs(parent, trips[..|trips| - 1]) + TripObs(parent, trips[|trips| - 1])
  }

  /** Trips, km and minutes counted for the keys in `keys`. */
  function Total(obs: seq<Obs>, keys: iset<Key>): Acc {
    if obs == [] then Zero
    else
      var before, o := Total(obs[..|obs| - 1], keys), obs[|obs| - 1];
      if o.key in keys then Plus(before, AccOf(o)) else before
  }

  function KeysOf(obs: seq<Obs>): set<Key> { set i | 0 <= i < |obs| :: obs[i].key }

  lemma {:induction false} TotalSplits(obs: seq<Obs>, a: iset<Key>, b: iset<Key>)
    requires a !! b
    ensures Total(obs, a + b) == Plus(Total(obs, a), Total(obs, b))
  {
    if obs != [] { TotalSplits(obs[..|obs| - 1], a, b); }
  }

  /** Only the keys that occur matter. */
  lemma {:induction false} TotalOfOccurring(obs: seq<Obs>, a: iset<Key>, b: iset<Key>)
    requires forall k | k in KeysOf(obs) :: k in a <==> k in b
    ensures Total(obs, a) == Total(obs, b)
  {
    if obs != [] {
      KeysSnoc(obs[..|obs| - 1], obs[|obs| - 1]);
      assert obs == obs[..|obs| - 1] + [obs[|obs| - 1]];
      TotalOfOccurring(obs[..|obs| - 1], a, b);
    }
  }

  lemma {:induction false} TotalOfNothing(obs: seq<Obs>, a: iset<Key>)
    requires forall k | k in KeysOf(obs) :: k !in a
    ensures Total(obs, a) == Zero
  {
    if obs != [] {
      KeysSnoc(obs[..|obs| - 1], obs[|obs| - 1]);
      assert obs == obs[..|obs| - 1] + [obs[|obs| - 1]];
      TotalOfNothing(obs[..|obs| - 1], a);
    }
  }

  predicate SpeedOk(km: real, minutes: real) {
    minutes > 0.0 && MIN_KMH * minutes <= 60.0 * km <= MAX_KMH * minutes
  }

  ghost predicate EndsOk(parent: (Cell, int) -> Cell, t: Trip) {
    (forall c, r {:trigger parent(c, r)} :: parent(c, r).res == r) && t.from9.res == 9 && t.to9.res == 9
  }

  /** A usable trip is counted for one key of each resolution. */
  lemma TripCountsOnce(parent: (Cell, int) -> Cell, t: Trip, res: int)
    requires EndsOk(parent, t) && IsRes(res)
    ensures Plus(Plus(One(ObsAt(parent, t, 9), OfRes(res)), One(ObsAt(parent, t, 8), OfRes(res))), One(ObsAt(parent, t, 7), OfRes(res)))
            == Acc(1, t.km, t.minutes)
  {
    var keys := OfRes(res);
    var a, b, c := One(ObsAt(parent, t, 9), keys), One(ObsAt(parent, t, 8), keys), One(ObsAt(parent, t, 7), keys);
    assert a == if res == 9 then Acc(1, t.km, t.minutes) else Zero;
    assert b == if res == 8 then Acc(1, t.km, t.minutes) else Zero;
    assert c == if res == 7 then Acc(1, t.km, t.minutes) else Zero;
    PlusZero(Acc(1, t.km, t.minutes));
    PlusZero(Zero);
  }

  lemma PlusAssoc(a: Acc, b: Acc, c: Acc)
    ensures Plus(Plus(a, b), c) == Plus(a, Plus(b, c))
  {
  }

  lemma PlusZero(a: Acc)
    ensures Plus(a, Zero) == a && Plus(Zero, a) == a
  {
  }

  lemma TripObsOk(parent: (Cell, int) -> Cell, t: Trip)
    requires EndsOk(parent, t) && SpeedOk(t.km, t.minutes)
    ensures ObsAllOk(AtEachRes(parent, t))
  {
    ThreeOk(ObsAt(parent, t, 9), ObsAt(parent, t, 8), ObsAt(parent, t, 7));
  }

  lemma ThreeOk(a: Obs, b: Obs, c: Obs)
    requires ObsOk(a) && ObsOk(b) && ObsOk(c)
    ensures ObsAllOk([a] + [b] + [c])
  {
    var q := [a] + [b] + [c];
    assert q[0] == a && q[1] == b && q[2] == c;
  }

  lemma TotalOfThree(a: Obs, b: Obs, c: Obs, keys: iset<Key>)
    ensures Total([a] + [b] + [c], keys) == Plus(Plus(One(a, keys), One(b, keys)), One(c, keys))
  {
    assert [a] == [] + [a];
    TotalSnoc([], a, keys);
    TotalSnoc([a], b, keys);
    TotalSnoc([a] + [b], c, keys);
  }

  ghost function OfRes(res: int): iset<Key> { iset k: Key | k.from.res == res && k.to.res == res }

  lemma TripTotal(parent: (Cell, int) -> Cell, t: Trip, res: int)
    requires EndsOk(parent, t) && IsRes(res)
    ensures Total(TripObs(parent, t), OfRes(res)) == if Usable(t) then Acc(1, t.km, t.minutes) else Zero
    ensures ObsAllOk(TripObs(parent, t))
  {
    if Usable(t) {
      UsableSpeed(t);
      TripObsOk(parent, t);
      TripCountsOnce(parent, t, res);
      TotalOfThree(ObsAt(parent, t, 9), ObsAt(parent, t, 8), ObsAt(parent, t, 7), OfRes(res));
    }
  }

  lemma BothOk(a: seq<Obs>, b: seq<Obs>)
    requires ObsAllOk(a) && ObsAllOk(b)
    ensures ObsAllOk(a + b)
  {
  }

  /** Every usable trip counts exactly once per resolution, with its own km and minutes, at a plausible speed. */
  lemma {:induction false} CountedOncePerResolution(parent: (Cell, int) -> Cell, trips: seq<Trip>, res: int)
    requires GridOk(parent, trips) && IsRes(res)
    ensures Total(AllObs(parent, trips), OfRes(res)) == UsableTotal(trips)
    ensures ObsAllOk(AllObs(parent, trips))
  {
    if trips != [] {
      var init, t := trips[..|trips| - 1], trips[|trips| - 1];
      CountedOncePerResolution(parent, init, res);
      TripTotal(parent, t, res);
      TotalConcat(AllObs(parent, init), TripObs(parent, t), OfRes(res));
      BothOk(AllObs(parent, init), TripObs(parent, t));
      PlusZero(UsableTotal(init));
    }
  }

  lemma {:induction false} TotalConcat(a: seq<Obs>, b: seq<Obs>, keys: iset<Key>)
    ensures Total(a + b, keys) == Plus(Total(a, keys), Total(b, keys))
  {
    if b == [] {
      assert a + b == a;
      PlusZero(Total(a, keys));
    } else {
      var init, last := b[..|b| - 1], b[|b| - 1];
      assert (a + b)[..|a + b| - 1] == a + init && (a + b)[|a + b| - 1] == last;
      TotalConcat(a, init, keys);
      PlusAssoc(Total(a, keys), Total(init, keys), AccOf(last));
    }
  }

  /** The km and minutes of the usable trips, whatever their cells. */
  function UsableTotal(trips: seq<Trip>): Acc {
    if trips == [] then Zero
    else
      var before, t := UsableTotal(trips[..|trips| - 1]), trips[|trips| - 1];
      if Usable(t) then Plus(before, Acc(1, t.km, t.minutes)) else before
  }

  function One(o: Obs, keys: iset<Key>): Acc { if o.key in keys then AccOf(o) else Zero }

  lemma TotalSnoc(obs: seq<Obs>, o: Obs, keys: iset<Key>)
    ensures Total(obs + [o], keys) == Plus(Total(obs, keys), One(o, keys))
  {
    assert (obs + [o])[..|obs|] == obs;
  }

  ghost predicate ObsOk(o: Obs) {
    && SpeedOk(o.km, o.minutes)
    && o.key.from.res == o.key.to.res && IsRes(o.key.from.res) && o.key.hour.At?
  }

  lemma UsableSpeed(t: Trip)
    requires Usable(t)
    ensures SpeedOk(t.km, t.minutes)
  {
    var hours := t.minutes / 60.0;
    assert t.km == (t.km / hours) * hours;
    MulMono(MIN_KMH, t.km / hours, hours);
    MulMono(t.km / hours, MAX_KMH, hours);
  }

  /** Sums of plausible trips are plausible: the mediant inequality. */
  lemma {:induction false} TotalKeepsSpeed(obs: seq<Obs>, keys: iset<Key>)
    requires forall i | 0 <= i < |obs| :: ObsOk(obs[i])
    ensures var a := Total(obs, keys); a == Zero || (a.n > 0 && SpeedOk(a.km, a.minutes))
  {
    if obs != [] { TotalKeepsSpeed(obs[..|obs| - 1], keys); }
  }

  function Speed(km: real, minutes: real): real
    requires minutes > 0.0
  {
    km / (minutes / 60.0)
  }

  lemma SpeedInRange(km: real, minutes: real)
    requires SpeedOk(km, minutes)
    ensures MIN_KMH <= Speed(km, minutes) <= MAX_KMH
    ensures Speed(km, minutes) * minutes / 60.0 == km
  {
    var hours := minutes / 60.0;
    var s := Speed(km, minutes);
    assert s * hours == km;
    assert s * minutes == 60.0 * km;
    assert s < MIN_KMH ==> (MIN_KMH - s) * minutes > 0.0;
    assert s > MAX_KMH ==> (s - MAX_KMH) * minutes > 0.0;
  }

  // ------------------------------------------------------------------------------------ stored rows, loaded table

  /** The trips an entry speaks for: one key, or all hours of its pair. */
  ghost function Covers(k: Key): iset<Key> {
    if k.hour.At? then iset{k} else iset k': Key | k'.from == k.from && k'.to == k.to
  }

  /** The table learned straight from the trips: total km over total time for each key and for each pair. */
  ghost predicate Learned(table: map<Key, Entry>, obs: seq<Obs>) {
    forall k {:trigger k in table} :: EntryOk(table, obs, k)
  }

  ghost predicate EntryOk(table: map<Key, Entry>, obs: seq<Obs>, k: Key) {
    var a := Total(obs, Covers(k));
    && (k in table <==> a.minutes > 0.0)
    && (k in table ==> table[k] == Entry(a.n, Speed(a.km, a.minutes)))
  }

  function RowKey(r: Row): Key { Key(r.from, r.to, At(r.hour)) }

  function RowOf(k: Key, a: Acc): Row
    requires k.hour.At? && a.n > 0 && a.minutes > 0.0
  {
    Row(k.from, k.to, k.hour.h, a.n, Speed(a.km, a.minutes), a.minutes / a.n as real)
  }

  ghost predicate ObsAllOk(obs: seq<Obs>) { forall i | 0 <= i < |obs| :: ObsOk(obs[i]) }

  /** One averaged row for each key that occurs, in any order. */
  ghost predicate RowsOf(rows: seq<Row>, obs: seq<Obs>) {
    && (forall i, j | 0 <= i < j < |rows| :: RowKey(rows[i]) != RowKey(rows[j]))
    && (forall k | k in KeysOf(obs) :: HasRow(rows, k))
    && (forall i | 0 <= i < |rows| :: RowFits(rows[i], obs))
  }

  ghost predicate HasRow(rows: seq<Row>, k: Key) { exists i :: 0 <= i < |rows| && RowKey(rows[i]) == k }

  lemma HasRowSnoc(rows: seq<Row>, r: Row, k: Key)
    ensures HasRow(rows + [r], k) <==> HasRow(rows, k) || RowKey(r) == k
  {
    if HasRow(rows, k) {
      var i :| 0 <= i < |rows| && RowKey(rows[i]) == k;
      assert (rows + [r])[i] == rows[i];
    }
    assert (rows + [r])[|rows|] == r;
  }

  ghost predicate RowFits(r: Row, obs: seq<Obs>) {
    var a := Total(obs, iset{RowKey(r)});
    RowKey(r) in KeysOf(obs) && a.n > 0 && SpeedOk(a.km, a.minutes) && r == RowOf(RowKey(r), a)
  }

  lemma {:induction false} OccursIffCounted(obs: seq<Obs>, keys: iset<Key>)
    requires ObsAllOk(obs)
    ensures Total(obs, keys) == Zero <==> forall k | k in KeysOf(obs) :: k !in keys
  {
    if obs != [] {
      OccursIffCounted(obs[..|obs| - 1], keys);
      TotalKeepsSpeed(obs[..|obs| - 1], keys);
      KeysSnoc(obs[..|obs| - 1], obs[|obs| - 1]);
      assert obs == obs[..|obs| - 1] + [obs[|obs| - 1]];
    }
  }

  lemma KeysSnoc(obs: seq<Obs>, o: Obs)
    ensures KeysOf(obs + [o]) == KeysOf(obs) + {o.key}
  {
    forall k | k in KeysOf(obs) + {o.key} ensures k in KeysOf(obs + [o]) {
      if k in KeysOf(obs) {
        var i :| 0 <= i < |obs| && obs[i].key == k;
        assert (obs + [o])[i].key == k;
      } else {
        assert (obs + [o])[|obs|].key == k;
      }
    }
  }

  /** The keys of the first `i` rows that belong to a pair. */
  ghost function Seen(rows: seq<Row>, i: nat, pair: Key): iset<Key>
    requires i <= |rows|
  {
    iset k: Key | k.from == pair.from && k.to == pair.to && exists j :: 0 <= j < i && RowKey(rows[j]) == k
  }

  /** What a row gives back of the sums it was averaged from. */
  lemma RowGivesBack(r: Row, obs: seq<Obs>)
    requires RowFits(r, obs)
    ensures var minutes := r.avgDurationMin * r.trips as real;
            Acc(r.trips, r.avgSpeedKmh * minutes / 60.0, minutes) == Total(obs, iset{RowKey(r)})
  {
    var a := Total(obs, iset{RowKey(r)});
    SpeedInRange(a.km, a.minutes);
    assert a.minutes / a.n as real * a.n as real == a.minutes;
  }

  /** The next row extends what its pair has seen, and no other pair's. */
  lemma NextRow(rows: seq<Row>, obs: seq<Obs>, i: nat, pair: Key)
    requires RowsOf(rows, obs) && ObsAllOk(obs) && i < |rows|
    ensures var r := rows[i];
            Total(obs, Seen(rows, i + 1, pair)) ==
            if r.from == pair.from && r.to == pair.to then Plus(Total(obs, Seen(rows, i, pair)), Total(obs, iset{RowKey(r)}))
            else Total(obs, Seen(rows, i, pair))
  {
    var k := RowKey(rows[i]);
    if rows[i].from == pair.from && rows[i].to == pair.to {
      assert k !in Seen(rows, i, pair);
      assert Seen(rows, i + 1, pair) == Seen(rows, i, pair) + iset{k};
      TotalSplits(obs, Seen(rows, i, pair), iset{k});
    } else {
      assert Seen(rows, i + 1, pair) == Seen(rows, i, pair);
    }
  }

  lemma AllRowsSeen(rows: seq<Row>, obs: seq<Obs>, pair: Key)
    requires RowsOf(rows, obs) && pair.hour == AllHours
    ensures Total(obs, Seen(rows, |rows|, pair)) == Total(obs, Covers(pair))
  {
    TotalOfOccurring(obs, Seen(rows, |rows|, pair), Covers(pair));
  }

  // --------------------------------------------------------------------------------------- rebuild, load, look up

  /** The running sums of `rebuild`: one per key that occurs. */
  ghost predicate AggOf(agg: map<Key, Acc>, obs: seq<Obs>) {
    && agg.Keys == KeysOf(obs)
    && (forall k | k in agg :: agg[k] == Total(obs, iset{k}))
  }

  lemma AggSnoc(agg: map<Key, Acc>, obs: seq<Obs>, o: Obs)
    requires AggOf(agg, obs)
    ensures AggOf(agg[o.key := Plus(if o.key in agg then agg[o.key] else Zero, AccOf(o))], obs + [o])
  {
    KeysSnoc(obs, o);
    if o.key !in agg { TotalOfNothing(obs, iset{o.key}); }
    var agg' := agg[o.key := Plus(if o.key in agg then agg[o.key] else Zero, AccOf(o))];
    forall k | k in agg' ensures agg'[k] == Total(obs + [o], iset{k}) {
      TotalSnoc(obs, o, iset{k});
    }
  }

  /** The all-hours sums of `load` after its first `i` rows. */
  ghost predicate AllOk(all: map<Key, Acc>, obs: seq<Obs>, rows: seq<Row>, i: nat)
    requires i <= |rows|
  {
    && (forall p | p in all :: p.hour == AllHours)
    && (forall p: Key | p.hour == AllHours :: PairOk(all, obs, rows, i, p))
  }

  ghost predicate PairOk(all: map<Key, Acc>, obs: seq<Obs>, rows: seq<Row>, i: nat, p: Key)
    requires i <= |rows|
  {
    (if p in all then all[p] else Zero) == Total(obs, Seen(rows, i, p)) && (p in all ==> all[p] != Zero)
  }

  /** A row's sums, recovered from its averages, added to its pair's. */
  function WithRow(all: map<Key, Acc>, r: Row): map<Key, Acc> {
    var k := Key(r.from, r.to, AllHours);
    var minutes := r.avgDurationMin * r.trips as real;
    all[k := Plus(if k in all then all[k] else Zero, Acc(r.trips, r.avgSpeedKmh * minutes / 60.0, minutes))]
  }

  lemma AllSnoc(all: map<Key, Acc>, obs: seq<Obs>, rows: seq<Row>, i: nat)
    requires RowsOf(rows, obs) && ObsAllOk(obs) && i < |rows| && AllOk(all, obs, rows, i)
    ensures AllOk(WithRow(all, rows[i]), obs, rows, i + 1)
  {
    var r := rows[i];
    var k := Key(r.from, r.to, AllHours);
    RowGivesBack(r, obs);
    var all' := WithRow(all, r);
    forall p: Key | p.hour == AllHours ensures PairOk(all', obs, rows, i + 1, p) {
      assert PairOk(all, obs, rows, i, p);
      NextRow(rows, obs, i, p);
    }
  }

  lemma PairSpeed(hours: map<Key, Entry>, all: map<Key, Acc>, obs: seq<Obs>, rows: seq<Row>, k: Key)
    requires ObsAllOk(obs) && HoursOk(hours, rows, |rows|) && AllOk(all, obs, rows, |rows|) && k in all
    ensures all[k].minutes > 0.0 && k !in hours
  {
    TotalKeepsSpeed(obs, Seen(rows, |rows|, k));
    assert PairOk(all, obs, rows, |rows|, k);
  }

  /** The by-hour entries after the first `i` rows. */
  ghost predicate HoursOk(table: map<Key, Entry>, rows: seq<Row>, i: nat)
    requires i <= |rows|
  {
    && (forall k | k in table :: exists j :: 0 <= j < i && RowKey(rows[j]) == k)
    && (forall j | 0 <= j < i :: RowKey(rows[j]) in table && table[RowKey(rows[j])] == Entry(rows[j].trips, rows[j].avgSpeedKmh))
  }

  lemma HoursSnoc(table: map<Key, Entry>, rows: seq<Row>, i: nat)
    requires i < |rows| && HoursOk(table, rows, i) && forall j | 0 <= j < i :: RowKey(rows[j]) != RowKey(rows[i])
    ensures HoursOk(table[RowKey(rows[i]) := Entry(rows[i].trips, rows[i].avgSpeedKmh)], rows, i + 1)
  {
  }

  lemma LoadedIsLearned(table: map<Key, Entry>, all: map<Key, Acc>, obs: seq<Obs>, rows: seq<Row>, full: map<Key, Entry>)
    requires RowsOf(rows, obs) && ObsAllOk(obs) && HoursOk(table, rows, |rows|) && AllOk(all, obs, rows, |rows|)
    requires full.Keys == table.Keys + all.Keys
    requires forall k | k in table :: full[k] == table[k]
    requires forall k | k in all :: all[k].minutes > 0.0 && full[k] == Entry(all[k].n, Speed(all[k].km, all[k].minutes))
    ensures Learned(full, obs)
  {
    forall k ensures EntryOk(full, obs, k) {
      TotalKeepsSpeed(obs, Covers(k));
      if k.hour.At? {
        OccursIffCounted(obs, Covers(k));
        if k in KeysOf(obs) {
          var i :| 0 <= i < |rows| && RowKey(rows[i]) == k;
          assert RowFits(rows[i], obs);
        }
        if k in table {
          var j :| 0 <= j < |rows| && RowKey(rows[j]) == k;
          assert RowFits(rows[j], obs);
        }
        assert k !in all;
      } else {
        assert PairOk(all, obs, rows, |rows|, k);
        AllRowsSeen(rows, obs, k);
        assert k !in table;
      }
    }
  }

  // ------------------------------------------------------------------ the same straight from the stored trips

  /** km driven when they were measured, else the quoted ones. */
  function Km(s: StoredTrip): real { match s.actualDistanceM case Some(metres) => metres / 1000.0 case None => s.distanceKm }

  function Minutes(s: StoredTrip): real { (s.endedAt - s.startedAt) as real / 60000.0 }

  /** Took time, at 3 to 80 km/h. */
  predicate IsPlausible(s: StoredTrip) {
    s.endedAt > s.startedAt && 3.0 * Minutes(s) <= 60.0 * Km(s) <= 80.0 * Minutes(s)
  }

  /** The hexagon of a trip's end at a resolution: its own at 9, a parent at 8 and 7. */
  function EndAt(parent: (Cell, int) -> Cell, end9: Cell, res: int): Cell { if res == 9 then end9 else parent(end9, res) }

  /** Whether a trip went from the key's first hexagon to its second, starting in the key's hour of Indian time. */
  predicate Went(parent: (Cell, int) -> Cell, s: StoredTrip, k: Key) {
    && (k.from.res == 9 || k.from.res == 8 || k.from.res == 7)
    && EndAt(parent, s.from9, k.from.res) == k.from && EndAt(parent, s.to9, k.from.res) == k.to
    && (k.hour.At? ==> (s.startedAt / 60_000 + 330) / 60 % 24 == k.hour.h)
  }

  /** Number, km and minutes of the plausible trips that went as the key says. */
  function Travelled(parent: (Cell, int) -> Cell, stored: seq<StoredTrip>, k: Key): Acc {
    if stored == [] then Zero
    else
      var before, s := Travelled(parent, stored[..|stored| - 1], k), stored[|stored| - 1];
      if IsPlausible(s) && Went(parent, s, k) then Acc(before.n + 1, before.km + Km(s), before.minutes + Minutes(s)) else before
  }

  function Plausible(stored: seq<StoredTrip>): nat {
    if stored == [] then 0 else Plausible(stored[..|stored| - 1]) + if IsPlausible(stored[|stored| - 1]) then 1 else 0
  }

  /** For every pair of hexagons, every hour and all hours: total km over total hours of just those trips, when there are any. */
  ghost predicate LearnedFromTrips(parent: (Cell, int) -> Cell, stored: seq<StoredTrip>, table: map<Key, Entry>) {
    forall k {:trigger k in table} :: EntryFromTrips(Travelled(parent, stored, k), table, k)
  }

  ghost predicate EntryFromTrips(a: Acc, table: map<Key, Entry>, k: Key) {
    && (k in table <==> a.n > 0)
    && (k in table ==> a.minutes > 0.0 && table[k].trips == a.n && table[k].speed == a.km / (a.minutes / 60.0))
  }

  lemma UsableIffPlausible(s: StoredTrip)
    ensures Usable(TripOf(s)) <==> IsPlausible(s)
    ensures TripOf(s).km == Km(s) && TripOf(s).minutes == Minutes(s)
  {
    if s.endedAt > s.startedAt { SpeedIff(Km(s), Minutes(s)); }
  }

  lemma SpeedIff(km: real, minutes: real)
    requires minutes > 0.0
    ensures 3.0 <= km / (minutes / 60.0) <= 80.0 <==> 3.0 * minutes <= 60.0 * km <= 80.0 * minutes
  {
    var hours := minutes / 60.0;
    var v := km / hours;
    assert v * hours == km;
    QuotientBetween(v, hours, 3.0, 80.0);
  }

  lemma QuotientBetween(v: real, hours: real, low: real, high: real)
    requires hours > 0.0
    ensures low <= v <= high <==> low * hours <= v * hours <= high * hours
  {
    if low <= v { MulMono(low, v, hours); } else { assert (low - v) * hours > 0.0; }
    if v <= high { MulMono(v, high, hours); } else { assert (v - high) * hours > 0.0; }
  }

  lemma HourIs(s: StoredTrip)
    ensures TripOf(s).hour == (s.startedAt / 60_000 + 330) / 60 % 24
  {
    HourOfMinutes(s.startedAt / 60_000);
    MinutesAreSixtieths(s.startedAt);
  }

  lemma MinutesAreSixtieths(t: int)
    ensures t / 3_600_000 == t / 60_000 / 60
  {
  }

  lemma HourOfMinutes(m: int)
    ensures IstHour(m / 60 % 24, m % 60) == (m + 330) / 60 % 24
  {
    var h, r, days := m / 60, m % 60, m / 60 / 24;
    assert m == 60 * h + r;
    assert (m + 330) / 60 == h + (r + 330) / 60;
    assert h == 24 * days + h % 24;
    assert (h + (r + 330) / 60) % 24 == (h % 24 + (r + 330) / 60) % 24;
    assert (h % 24 * 60 + r + 330) / 60 == h % 24 + (r + 330) / 60;
  }

  lemma CoversIff(parent: (Cell, int) -> Cell, s: StoredTrip, res: int, k: Key)
    requires EndsOk(parent, TripOf(s)) && IsRes(res)
    ensures TripKey(parent, TripOf(s), res) in Covers(k) <==> k.from.res == res && Went(parent, s, k)
  {
    HourIs(s);
  }

  lemma ThreeCounted(a: Obs, b: Obs, c: Obs, keys: iset<Key>, acc: Acc, in9: bool, in8: bool, in7: bool)
    requires AccOf(a) == acc && AccOf(b) == acc && AccOf(c) == acc
    requires (in9 <==> a.key in keys) && (in8 <==> b.key in keys) && (in7 <==> c.key in keys)
    requires !(in9 && in8) && !(in9 && in7) && !(in8 && in7)
    ensures Plus(Plus(One(a, keys), One(b, keys)), One(c, keys)) == if in9 || in8 || in7 then acc else Zero
  {
    OneIs(a, keys, in9, acc);
    OneIs(b, keys, in8, acc);
    OneIs(c, keys, in7, acc);
    AtMostOne(One(a, keys), One(b, keys), One(c, keys), acc, in9, in8, in7);
  }

  lemma OneIs(o: Obs, keys: iset<Key>, isIn: bool, acc: Acc)
    requires (isIn <==> o.key in keys) && acc == AccOf(o)
    ensures One(o, keys) == if isIn then acc else Zero
  {
  }

  lemma AtMostOne(x: Acc, y: Acc, z: Acc, acc: Acc, in9: bool, in8: bool, in7: bool)
    requires !(in9 && in8) && !(in9 && in7) && !(in8 && in7)
    requires x == (if in9 then acc else Zero) && y == (if in8 then acc else Zero) && z == (if in7 then acc else Zero)
    ensures Plus(Plus(x, y), z) == if in9 || in8 || in7 then acc else Zero
  {
    if in9 {
      assert x == acc && y == Zero && z == Zero;
    } else if in8 {
      assert x == Zero && y == acc && z == Zero;
    } else if in7 {
      assert x == Zero && y == Zero && z == acc;
    } else {
      assert x == Zero && y == Zero && z == Zero;
    }
  }

  lemma PartsCounted(parent: (Cell, int) -> Cell, t: Trip, k: Key, went: bool)
    requires went ==> IsRes(k.from.res)
    requires forall res | IsRes(res) :: TripKey(parent, t, res) in Covers(k) <==> k.from.res == res && went
    ensures var a, b, c := ObsAt(parent, t, 9), ObsAt(parent, t, 8), ObsAt(parent, t, 7);
            Plus(Plus(One(a, Covers(k)), One(b, Covers(k))), One(c, Covers(k))) == if went then Acc(1, t.km, t.minutes) else Zero
  {
    var a, b, c, res := ObsAt(parent, t, 9), ObsAt(parent, t, 8), ObsAt(parent, t, 7), k.from.res;
    assert IsRes(9) && IsRes(8) && IsRes(7);
    ThreeCounted(a, b, c, Covers(k), Acc(1, t.km, t.minutes), went && res == 9, went && res == 8, went && res == 7);
  }

  lemma CountedAs(parent: (Cell, int) -> Cell, t: Trip, k: Key, went: bool)
    requires went ==> IsRes(k.from.res)
    requires forall res | IsRes(res) :: TripKey(parent, t, res) in Covers(k) <==> k.from.res == res && went
    ensures Total(AtEachRes(parent, t), Covers(k)) == if went then Acc(1, t.km, t.minutes) else Zero
  {
    TotalOfThree(ObsAt(parent, t, 9), ObsAt(parent, t, 8), ObsAt(parent, t, 7), Covers(k));
    PartsCounted(parent, t, k, went);
  }

  lemma TripCounted(parent: (Cell, int) -> Cell, s: StoredTrip, k: Key)
    requires EndsOk(parent, TripOf(s))
    ensures Total(TripObs(parent, TripOf(s)), Covers(k)) == if IsPlausible(s) && Went(parent, s, k) then Acc(1, Km(s), Minutes(s)) else Zero
  {
    UsableIffPlausible(s);
    if IsPlausible(s) {
      forall res | IsRes(res) ensures TripKey(parent, TripOf(s), res) in Covers(k) <==> k.from.res == res && Went(parent, s, k) {
        CoversIff(parent, s, res, k);
      }
      CountedAs(parent, TripOf(s), k, Went(parent, s, k));
    }
  }

  lemma ObsOfLast(parent: (Cell, int) -> Cell, stored: seq<StoredTrip>)
    requires stored != []
    ensures var init, trips := stored[..|stored| - 1], TripsOf(stored);
            && TripsOf(init) == trips[..|trips| - 1] && trips[|trips| - 1] == TripOf(stored[|stored| - 1])
            && AllObs(parent, trips) == AllObs(parent, TripsOf(init)) + TripObs(parent, TripOf(stored[|stored| - 1]))
  {
    var init, trips := stored[..|stored| - 1], TripsOf(stored);
    assert trips[..|trips| - 1] == TripsOf(init);
  }

  lemma {:induction false} TravelledIsTotal(parent: (Cell, int) -> Cell, stored: seq<StoredTrip>, k: Key)
    requires GridOk(parent, TripsOf(stored))
    ensures Travelled(parent, stored, k) == Total(AllObs(parent, TripsOf(stored)), Covers(k))
  {
    if stored != [] {
      var init, s := stored[..|stored| - 1], stored[|stored| - 1];
      ObsOfLast(parent, stored);
      LastIsOk(parent, stored);
      TravelledIsTotal(parent, init, k);
      TripCounted(parent, s, k);
      TotalConcat(AllObs(parent, TripsOf(init)), TripObs(parent, TripOf(s)), Covers(k));
      PlusZero(Travelled(parent, init, k));
    }
  }

  lemma LastIsOk(parent: (Cell, int) -> Cell, stored: seq<StoredTrip>)
    requires stored != [] && GridOk(parent, TripsOf(stored))
    ensures GridOk(parent, TripsOf(stored[..|stored| - 1])) && EndsOk(parent, TripOf(stored[|stored| - 1]))
  {
    var init, trips := stored[..|stored| - 1], TripsOf(stored);
    forall i | 0 <= i < |init| ensures TripsOf(init)[i] == trips[i] {}
    assert trips[|trips| - 1] == TripOf(stored[|stored| - 1]);
  }

  lemma {:induction false} PlausibleIsUsed(stored: seq<StoredTrip>)
    ensures Plausible(stored) == UsableTotal(TripsOf(stored)).n
  {
    if stored != [] {
      var init, trips := stored[..|stored| - 1], TripsOf(stored);
      assert trips[..|trips| - 1] == TripsOf(init);
      PlausibleIsUsed(init);
      UsableIffPlausible(stored[|stored| - 1]);
    }
  }

  lemma {:induction false} TravelledTakesTime(parent: (Cell, int) -> Cell, stored: seq<StoredTrip>, k: Key)
    ensures var a := Travelled(parent, stored, k); a.minutes >= 0.0 && (a.n > 0 <==> a.minutes > 0.0)
  {
    if stored != [] { TravelledTakesTime(parent, stored[..|stored| - 1], k); }
  }

  lemma LearnedIsFromTrips(parent: (Cell, int) -> Cell, stored: seq<StoredTrip>, table: map<Key, Entry>)
    requires GridOk(parent, TripsOf(stored)) && Learned(table, AllObs(parent, TripsOf(stored)))
    ensures LearnedFromTrips(parent, stored, table)
  {
    forall k ensures EntryFromTrips(Travelled(parent, stored, k), table, k) {
      TravelledIsTotal(parent, stored, k);
      TravelledTakesTime(parent, stored, k);
      assert EntryOk(table, AllObs(parent, TripsOf(stored)), k);
    }
  }

  /** What a lookup finds first: the asked hour from fine to coarse, then all hours from fine to coarse. */
  datatype Hit = Hit(entry: Entry, res: int, hour: Hour)

  function Probe(table: map<Key, Entry>, k: Key, res: int, minTrips: int): Option<Hit> {
    if k in table && table[k].trips >= minTrips then Some(Hit(table[k], res, k.hour)) else None
  }

  datatype Place = Place(lat: real, lng: real)

  function ResOf(n: nat): int { if n < 3 then 9 - n else 12 - n }

  function ProbeKey(cellAt: (Place, int) -> Cell, from: Place, to: Place, hour: int, n: nat): Key
    requires n < 6
  {
    var res := ResOf(n);
    Key(cellAt(from, res), cellAt(to, res), if n < 3 then At(hour) else AllHours)
  }

  /** The first of the six probes that hits, if any does. */
  ghost predicate Finds(table: map<Key, Entry>, cellAt: (Place, int) -> Cell, from: Place, to: Place, hour: int, minTrips: int, hit: Option<Hit>) {
    && (hit.Some? ==> exists n: nat | n < 6 ::
          && hit == Probe(table, ProbeKey(cellAt, from, to, hour, n), ResOf(n), minTrips)
          && forall m: nat | m < n :: Probe(table, ProbeKey(cellAt, from, to, hour, m), ResOf(m), minTrips) == None)
    && (hit == None ==> forall n: nat | n < 6 :: Probe(table, ProbeKey(cellAt, from, to, hour, n), ResOf(n), minTrips) == None)
  }

  /** Enough plausible trips went between the hexagons of two places, at a resolution and in an hour or all hours. */
  ghost predicate EnoughTrips(parent: (Cell, int) -> Cell, stored: seq<StoredTrip>, from: Cell, to: Cell, hour: Hour, minTrips: int) {
    var n := Travelled(parent, stored, Key(from, to, hour)).n; n > 0 && n >= minTrips
  }

  lemma ProbeIff(parent: (Cell, int) -> Cell, stored: seq<StoredTrip>, table: map<Key, Entry>, k: Key, res: int, minTrips: int)
    requires LearnedFromTrips(parent, stored, table)
    ensures Probe(table, k, res, minTrips).Some? <==> EnoughTrips(parent, stored, k.from, k.to, k.hour, minTrips)
  {
    assert EntryFromTrips(Travelled(parent, stored, k), table, k);
  }

  /** Probe number `n` misses exactly when too few trips went at its resolution and hour. */
  lemma ProbeMisses(parent: (Cell, int) -> Cell, stored: seq<StoredTrip>, table: map<Key, Entry>, cellAt: (Place, int) -> Cell, from: Place, to: Place, hour: int, minTrips: int, n: nat)
    requires LearnedFromTrips(parent, stored, table) && n < 6
    ensures Probe(table, ProbeKey(cellAt, from, to, hour, n), ResOf(n), minTrips) == None <==>
            !EnoughTrips(parent, stored, cellAt(from, ResOf(n)), cellAt(to, ResOf(n)), if n < 3 then At(hour) else AllHours, minTrips)
  {
    ProbeIff(parent, stored, table, ProbeKey(cellAt, from, to, hour, n), ResOf(n), minTrips);
  }

  lemma ProbeHits(parent: (Cell, int) -> Cell, stored: seq<StoredTrip>, table: map<Key, Entry>, cellAt: (Place, int) -> Cell, from: Place, to: Place, hour: int, minTrips: int, n: nat, hit: Hit)
    requires LearnedFromTrips(parent, stored, table) && n < 6
    requires Probe(table, ProbeKey(cellAt, from, to, hour, n), ResOf(n), minTrips) == Some(hit)
    ensures hit.res == ResOf(n) && hit.hour == if n < 3 then At(hour) else AllHours
    ensures var a := Travelled(parent, stored, Key(cellAt(from, hit.res), cellAt(to, hit.res), hit.hour));
            a.minutes > 0.0 && a.n >= minTrips && hit.entry == Entry(a.n, a.km / (a.minutes / 60.0))
  {
    var k := ProbeKey(cellAt, from, to, hour, n);
    assert EntryFromTrips(Travelled(parent, stored, k), table, k);
  }

  /** No resolution has enough trips in this hour. */
  ghost predicate NowhereEnough(parent: (Cell, int) -> Cell, stored: seq<StoredTrip>, cellAt: (Place, int) -> Cell, from: Place, to: Place, hour: Hour, minTrips: int, coarsest: int) {
    forall res | coarsest <= res <= 9 :: !EnoughTrips(parent, stored, cellAt(from, res), cellAt(to, res), hour, minTrips)
  }

  lemma MissesMean(parent: (Cell, int) -> Cell, stored: seq<StoredTrip>, table: map<Key, Entry>, cellAt: (Place, int) -> Cell, from: Place, to: Place, hour: int, minTrips: int, n: nat)
    requires LearnedFromTrips(parent, stored, table) && n <= 6
    requires forall m: nat | m < n :: Probe(table, ProbeKey(cellAt, from, to, hour, m), ResOf(m), minTrips) == None
    ensures NowhereEnough(parent, stored, cellAt, from, to, At(hour), minTrips, if n < 3 then 10 - n else 7)
    ensures n >= 3 ==> NowhereEnough(parent, stored, cellAt, from, to, AllHours, minTrips, 13 - n)
  {
    forall m: nat | m < n
      ensures !EnoughTrips(parent, stored, cellAt(from, ResOf(m)), cellAt(to, ResOf(m)), if m < 3 then At(hour) else AllHours, minTrips)
    {
      ProbeMisses(parent, stored, table, cellAt, from, to, hour, minTrips, m);
    }
    forall res | (if n < 3 then 10 - n else 7) <= res <= 9 ensures !EnoughTrips(parent, stored, cellAt(from, res), cellAt(to, res), At(hour), minTrips) {
      assert ResOf(9 - res) == res;
    }
    if n >= 3 {
      forall res | 13 - n <= res <= 9 ensures !EnoughTrips(parent, stored, cellAt(from, res), cellAt(to, res), AllHours, minTrips) {
        assert ResOf(12 - res) == res;
      }
    }
  }

  /**
   * From stored trips to an answer: the speed given is total km over total hours of just the plausible trips from the
   * first place's hexagon to the second's, at the finest resolution with enough of them in the hour asked, else in all
   * hours; and none only when no resolution has enough.
   */
  lemma AnswerIsFromTrips(parent: (Cell, int) -> Cell, stored: seq<StoredTrip>, table: map<Key, Entry>, cellAt: (Place, int) -> Cell, from: Place, to: Place, hour: int, minTrips: int, hit: Option<Hit>)
    requires LearnedFromTrips(parent, stored, table) && Finds(table, cellAt, from, to, hour, minTrips, hit)
    ensures match hit
            case None =>
              && NowhereEnough(parent, stored, cellAt, from, to, At(hour), minTrips, 7)
              && NowhereEnough(parent, stored, cellAt, from, to, AllHours, minTrips, 7)
            case Some(h) =>
              && 7 <= h.res <= 9 && (h.hour == At(hour) || h.hour == AllHours)
              && (var a := Travelled(parent, stored, Key(cellAt(from, h.res), cellAt(to, h.res), h.hour));
                  a.minutes > 0.0 && a.n >= minTrips && h.entry == Entry(a.n, a.km / (a.minutes / 60.0)))
              && NowhereEnough(parent, stored, cellAt, from, to, h.hour, minTrips, h.res + 1)
              && (h.hour == AllHours ==> NowhereEnough(parent, stored, cellAt, from, to, At(hour), minTrips, 7))
  {
    if hit.None? {
      MissesMean(parent, stored, table, cellAt, from, to, hour, minTrips, 6);
    } else {
      var n: nat :| n < 6 && hit == Probe(table, ProbeKey(cellAt, from, to, hour, n), ResOf(n), minTrips)
                    && forall m: nat | m < n :: Probe(table, ProbeKey(cellAt, from, to, hour, m), ResOf(m), minTrips) == None;
      ProbeHits(parent, stored, table, cellAt, from, to, hour, minTrips, n, hit.value);
      MissesMean(parent, stored, table, cellAt, from, to, hour, minTrips, n);
    }
  }

  class HexStats {
    const parent: (Cell, int) -> Cell
    var rows: seq<Row>
    var table: map<Key, Entry>

    constructor (parent: (Cell, int) -> Cell)
      ensures this.parent == parent && rows == [] && table == map[]
    {
      this.parent := parent;
      rows, table := [], map[];
    }

    /** Sums the trips, replaces the stored rows by one average per key, and loads them. */
    method Rebuild(stored: seq<StoredTrip>) returns (pairs: nat, used: nat)
      requires GridOk(parent, TripsOf(stored))
      modifies this
      ensures Learned(table, AllObs(parent, TripsOf(stored)))
      ensures RowsOf(rows, AllObs(parent, TripsOf(stored))) && pairs == |rows|
      ensures LearnedFromTrips(parent, stored, table) && used == Plausible(stored)
    {
      ghost var trips := TripsOf(stored);
      var agg: map<Key, Acc> := map[];
      used := 0;
      for i := 0 to |stored|
        invariant AggOf(agg, AllObs(parent, trips[..i])) && used == UsableTotal(trips[..i]).n
      {
        var t := TripOf(stored[i]);
        assert trips[..i + 1][..i] == trips[..i];
        if Usable(t) {
          used := used + 1;
          agg := AddTrip(agg, t, AllObs(parent, trips[..i]));
        } else {
          assert AllObs(parent, trips[..i + 1]) == AllObs(parent, trips[..i]);
        }
      }
      assert trips[..|trips|] == trips;
      ghost var obs := AllObs(parent, trips);
      CountedOncePerResolution(parent, trips, 9);
      rows := Averages(agg, obs);
      pairs := |rows|;
      Load(obs);
      LearnedIsFromTrips(parent, stored, table);
      PlausibleIsUsed(stored);
    }

    method AddTrip(agg0: map<Key, Acc>, t: Trip, ghost obs: seq<Obs>) returns (agg: map<Key, Acc>)
      requires AggOf(agg0, obs)
      ensures AggOf(agg, obs + AtEachRes(parent, t))
    {
      agg := agg0;
      ghost var done := obs;
      for i := 0 to |HEX_STAT_RES|
        invariant AggOf(agg, done) && done == obs + AtEachRes(parent, t)[..i]
      {
        var k := TripKey(parent, t, HEX_STAT_RES[i]);
        var a := if k in agg then agg[k] else Zero;
        AggSnoc(agg, done, ObsAt(parent, t, HEX_STAT_RES[i]));
        agg := agg[k := Plus(a, Acc(1, t.km, t.minutes))];
        done := done + [ObsAt(parent, t, HEX_STAT_RES[i])];
      }
      assert AtEachRes(parent, t)[..3] == AtEachRes(parent, t);
    }

    method Averages(agg: map<Key, Acc>, ghost obs: seq<Obs>) returns (out: seq<Row>)
      requires AggOf(agg, obs) && ObsAllOk(obs)
      ensures RowsOf(out, obs)
    {
      out := [];
      var rest := agg.Keys;
      while rest != {}
        invariant rest <= agg.Keys
        invariant forall i | 0 <= i < |out| :: RowKey(out[i]) in agg && RowKey(out[i]) !in rest && RowFits(out[i], obs)
        invariant forall i, j | 0 <= i < j < |out| :: RowKey(out[i]) != RowKey(out[j])
        invariant forall k | k in agg.Keys - rest :: HasRow(out, k)
        decreases rest
      {
        var k :| k in rest;
        KeyFits(obs, k);
        var r := RowOf(k, agg[k]);
        forall x | x in agg.Keys - (rest - {k}) ensures HasRow(out + [r], x) { HasRowSnoc(out, r, x); }
        out := out + [r];
        rest := rest - {k};
      }
    }

    /** The stored rows as a table, with an all-hours entry for each pair. */
    method Load(ghost obs: seq<Obs>)
      requires RowsOf(rows, obs) && ObsAllOk(obs)
      modifies this`table
      ensures Learned(table, obs)
    {
      var hours, all: map<Key, Acc> := map[], map[];
      forall p: Key ensures PairOk(all, obs, rows, 0, p) { TotalOfNothing(obs, Seen(rows, 0, p)); }
      for i := 0 to |rows|
        invariant HoursOk(hours, rows, i) && AllOk(all, obs, rows, i)
      {
        var r := rows[i];
        AllSnoc(all, obs, rows, i);
        HoursSnoc(hours, rows, i);
        hours := hours[RowKey(r) := Entry(r.trips, r.avgSpeedKmh)];
        all := WithRow(all, r);
      }
      var full := WithAllHours(hours, all, obs);
      LoadedIsLearned(hours, all, obs, rows, full);
      table := full;
    }

    method WithAllHours(hours: map<Key, Entry>, all: map<Key, Acc>, ghost obs: seq<Obs>) returns (full: map<Key, Entry>)
      requires RowsOf(rows, obs) && ObsAllOk(obs) && HoursOk(hours, rows, |rows|) && AllOk(all, obs, rows, |rows|)
      ensures full.Keys == hours.Keys + all.Keys
      ensures forall k | k in hours :: full[k] == hours[k]
      ensures forall k | k in all :: all[k].minutes > 0.0 && full[k] == Entry(all[k].n, Speed(all[k].km, all[k].minutes))
    {
      full := hours;
      var rest := all.Keys;
      while rest != {}
        invariant rest <= all.Keys && full.Keys == hours.Keys + (all.Keys - rest)
        invariant forall k | k in hours :: full[k] == hours[k]
        invariant forall k | k in all.Keys - rest :: all[k].minutes > 0.0 && full[k] == Entry(all[k].n, Speed(all[k].km, all[k].minutes))
        decreases rest
      {
        var k :| k in rest;
        PairSpeed(hours, all, obs, rows, k);
        full := full[k := Entry(all[k].n, Speed(all[k].km, all[k].minutes))];
        rest := rest - {k};
      }
    }

    /** The first pair and hour with enough trips, finest first, the asked hour before all hours. */
    method SpeedKmh(cellAt: (Place, int) -> Cell, from: Place, to: Place, hour: int, minTrips: int) returns (hit: Option<Hit>)
      ensures Finds(table, cellAt, from, to, hour, minTrips, hit)
    {
      for h := 0 to 2
        invariant forall m: nat | m < 3 * h :: Probe(table, ProbeKey(cellAt, from, to, hour, m), ResOf(m), minTrips) == None
      {
        for i := 0 to |HEX_STAT_RES|
          invariant forall m: nat | m < 3 * h + i :: Probe(table, ProbeKey(cellAt, from, to, hour, m), ResOf(m), minTrips) == None
        {
          var res := HEX_STAT_RES[i];
          var k := Key(cellAt(from, res), cellAt(to, res), if h == 0 then At(hour) else AllHours);
          assert k == ProbeKey(cellAt, from, to, hour, 3 * h + i) && res == ResOf(3 * h + i);
          if k in table && table[k].trips >= minTrips {
            hit := Some(Hit(table[k], res, k.hour));
            assert hit == Probe(table, ProbeKey(cellAt, from, to, hour, 3 * h + i), ResOf(3 * h + i), minTrips);
            return;
          }
        }
      }
      hit := None;
    }
  }

  lemma KeyFits(obs: seq<Obs>, k: Key)
    requires ObsAllOk(obs) && k in KeysOf(obs)
    ensures var a := Total(obs, iset{k}); k.hour.At? && a.n > 0 && SpeedOk(a.km, a.minutes)
  {
    OccursIffCounted(obs, iset{k});
    TotalKeepsSpeed(obs, iset{k});
    var i :| 0 <= i < |obs| && obs[i].key == k;
    assert ObsOk(obs[i]);
  }

  /** Every speed a rebuilt table answers with is between 3 and 80 km/h. */
  lemma LearnedSpeedsInRange(table: map<Key, Entry>, obs: seq<Obs>, k: Key)
    requires Learned(table, obs) && ObsAllOk(obs) && k in table
    ensures MIN_KMH <= table[k].speed <= MAX_KMH && table[k].trips > 0
  {
    assert EntryOk(table, obs, k);
    TotalKeepsSpeed(obs, Covers(k));
    var a := Total(obs, Covers(k));
    SpeedInRange(a.km, a.minutes);
  }
}
