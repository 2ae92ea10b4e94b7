/** Live demand per hexagon: distinct passengers in a window of minutes, and the surge published from them. */
module Demand {
  import opened JsMath
  import opened Surge

  type Passenger = string

  const SURGE_TTL_S := 180
  const WEIGHT := 0.4

  datatype Settings = Settings(windowMin: nat, sensitivity: real, minRequests: int, maxMultiplier: real)

  /** A published multiplier and when it expires. */
  datatype Published = Published(multiplier: real, until: int)

  /** `h3:riders:<minute>:<cell>` and `h3:req:<minute>`. */
  datatype Bookings = Bookings(riders: map<(int, Cell), set<Passenger>>, cells: map<int, set<Cell>>)

  function RidersIn(b: Bookings, minute: int, c: Cell): set<Passenger> {
    if (minute, c) in b.riders then b.riders[(minute, c)] else {}
  }

  function CellsIn(b: Bookings, minute: int): set<Cell> { if minute in b.cells then b.cells[minute] else {} }

  function Recorded(b: Bookings, minute: int, c: Cell, p: Passenger): Bookings {
    Bookings(b.riders[(minute, c) := RidersIn(b, minute, c) + {p}], b.cells[minute := CellsIn(b, minute) + {c}])
  }

  /** The passengers who booked in a cell in the `n` minutes up to `now`. */
  function Riders(b: Bookings, c: Cell, now: int, n: nat): set<Passenger> {
    if n == 0 then {} else Riders(b, c, now, n - 1) + RidersIn(b, now - (n - 1), c)
  }

  function RecentCells(b: Bookings, now: int, n: nat): set<Cell> {
    if n == 0 then {} else RecentCells(b, now, n - 1) + CellsIn(b, now - (n - 1))
  }

  /** The multiplier of each recent cell before smoothing. */
  function RawMap(b: Bookings, s: Settings, now: int, free: Cell -> nat): map<Cell, real> {
    map c | c in RecentCells(b, now, s.windowMin) :: RawAt(b, s, now, free, c)
  }

  function RawAt(b: Bookings, s: Settings, now: int, free: Cell -> nat, c: Cell): real {
    SurgeFor(|Riders(b, c, now, s.windowMin)|, free(c), s.sensitivity, s.minRequests, s.maxMultiplier).multiplier
  }

  /** What `h3:surge:<cell>` reads as at `t`: nothing once it has expired. */
  function SurgeAt(published: map<Cell, Published>, c: Cell, t: int): Option<real> {
    if c in published && t < published[c].until then Some(published[c].multiplier) else None
  }

  /** The live multipliers and the set of surging cells name the same cells and expire together. */
  ghost predicate InStep(published: map<Cell, Published>, surging: set<Cell>, until: int, t: int) {
    && (forall c | c in published && t < published[c].until :: c in surging && published[c].until == until)
    && (t < until ==> forall c | c in surging :: c in published && published[c].until == until)
  }

  class DemandService {
    const nbr: Neighbours
    var bookings: Bookings
    var published: map<Cell, Published>
    var surging: set<Cell>
    var surgingUntil: int

    constructor (nbr: Neighbours)
      ensures this.nbr == nbr && bookings == Bookings(map[], map[]) && forall t :: InStep(published, surging, surgingUntil, t)
    {
      this.nbr := nbr;
      bookings, published, surging, surgingUntil := Bookings(map[], map[]), map[], {}, 0;
    }

    method RecordRequest(c: Cell, p: Passenger, minute: int)
      modifies this`bookings
      ensures bookings == Recorded(old(bookings), minute, c, p)
      ensures Adds(old(bookings), bookings, minute, c, p)
    {
      RecordedAdds(bookings, minute, c, p);
      var riders := if (minute, c) in bookings.riders then bookings.riders[(minute, c)] else {};
      var cells := if minute in bookings.cells then bookings.cells[minute] else {};
      bookings := Bookings(bookings.riders[(minute, c) := riders + {p}], bookings.cells[minute := cells + {c}]);
    }

    /** Demand, supply and surge of every cell with recent bookings. */
    method Measure(s: Settings, minute: int, free: Cell -> nat) returns (raw: map<Cell, real>)
      ensures raw == RawMap(bookings, s, minute, free) && MeasuredFrom(bookings, s, minute, free, raw)
    {
      var b := bookings;
      RawMapIsMeasured(b, s, minute, free);
      raw := Tabulate(RecentCells(b, minute, s.windowMin), c => RawAt(b, s, minute, free, c));
    }

    /** One transaction: cells that surge no more lose their multiplier, the others get theirs, and the set is rewritten. */
    method Publish(out: map<Cell, real>, now: int)
      requires InStep(published, surging, surgingUntil, now)
      modifies this`published, this`surging, this`surgingUntil
      ensures forall c, t | now <= t < now + 180 :: SurgeAt(published, c, t) == if c in out then Some(out[c]) else None
      ensures surging == out.Keys
      ensures forall t | now <= t :: InStep(published, surging, surgingUntil, t)
    {
      // The set's own expiry hides it once its cells have expired too.
      var previous := if now < surgingUntil then surging else {};
      var gone := previous - out.Keys;
      var until := now + SURGE_TTL_S;
      published := (published - gone) + map c | c in out :: Published(out[c], until);
      surging, surgingUntil := out.Keys, until;
    }

    /** Recomputes and publishes: what is live afterwards is exactly the smoothed map, and the set of its cells. */
    method Refresh(s: Settings, now: int, minute: int, free: Cell -> nat) returns (ghost smoothed: map<Cell, real>)
      requires Symmetric(nbr) && InStep(published, surging, surgingUntil, now)
      modifies this`published, this`surging, this`surgingUntil
      ensures IsSmoothed(RawMap(bookings, s, minute, free), nbr, 0.4, smoothed)
      ensures forall c, t | now <= t < now + 180 :: SurgeAt(published, c, t) == if c in smoothed then Some(smoothed[c]) else None
      ensures surging == smoothed.Keys
      ensures forall t | now <= t :: InStep(published, surging, surgingUntil, t)
    {
      var raw := Measure(s, minute, free);
      var out := SmoothSurge(raw, nbr, WEIGHT);
      Publish(out, now);
      smoothed := out;
    }
  }

  method Tabulate(cells: set<Cell>, f: Cell -> real) returns (m: map<Cell, real>)
    ensures m == map c | c in cells :: f(c)
  {
    m := map[];
    var rest := cells;
    while rest != {}
      invariant rest <= cells && m == map c | c in cells - rest :: f(c)
      decreases rest
    {
      var c :| c in rest;
      m := m[c := f(c)];
      rest := rest - {c};
    }
  }

  // ------------------------------------------------------------------------------------------- what is counted

  /** One booking: its passenger under its minute and cell, its cell under its minute, and nothing else. */
  ghost predicate Adds(b: Bookings, b': Bookings, minute: int, c: Cell, p: Passenger) {
    && (forall m, d :: RidersIn(b', m, d) == RidersIn(b, m, d) + if m == minute && d == c then {p} else {})
    && (forall m :: CellsIn(b', m) == CellsIn(b, m) + if m == minute then {c} else {})
  }

  lemma RecordedAdds(b: Bookings, minute: int, c: Cell, p: Passenger)
    ensures Adds(b, Recorded(b, minute, c, p), minute, c, p)
  {
  }

  /** A minute of the last `n`. */
  predicate InWindow(minute: int, now: int, n: nat) { now - n < minute <= now }

  lemma {:induction false} RidersBooked(b: Bookings, c: Cell, now: int, n: nat, p: Passenger)
    ensures p in Riders(b, c, now, n) <==> exists m :: InWindow(m, now, n) && p in RidersIn(b, m, c)
  {
    if n > 0 {
      RidersBooked(b, c, now, n - 1, p);
      var oldest := now - (n - 1);
      assert InWindow(oldest, now, n);
      assert forall m :: InWindow(m, now, n) <==> InWindow(m, now, n - 1) || m == oldest;
    }
  }

  lemma {:induction false} RecentCellsBooked(b: Bookings, now: int, n: nat, c: Cell)
    ensures c in RecentCells(b, now, n) <==> exists m :: InWindow(m, now, n) && c in CellsIn(b, m)
  {
    if n > 0 {
      RecentCellsBooked(b, now, n - 1, c);
      var oldest := now - (n - 1);
      assert InWindow(oldest, now, n);
      assert forall m :: InWindow(m, now, n) <==> InWindow(m, now, n - 1) || m == oldest;
    }
  }

  /** The measured cells are those booked in the window; each has the surge of whoever booked there in it. */
  ghost predicate MeasuredFrom(b: Bookings, s: Settings, now: int, free: Cell -> nat, raw: map<Cell, real>) {
    && (forall c :: c in raw <==> exists m :: InWindow(m, now, s.windowMin) && c in CellsIn(b, m))
    && (forall c, riders: set<Passenger> | c in raw && BookedBy(b, s, now, c, riders) ::
          raw[c] == SurgeFor(|riders|, free(c), s.sensitivity, s.minRequests, s.maxMultiplier).multiplier)
  }

  ghost predicate BookedBy(b: Bookings, s: Settings, now: int, c: Cell, riders: set<Passenger>) {
    forall p :: p in riders <==> exists m :: InWindow(m, now, s.windowMin) && p in RidersIn(b, m, c)
  }

  lemma RawMapIsMeasured(b: Bookings, s: Settings, now: int, free: Cell -> nat)
    ensures MeasuredFrom(b, s, now, free, RawMap(b, s, now, free))
  {
    var raw := RawMap(b, s, now, free);
    forall c ensures c in raw <==> exists m :: InWindow(m, now, s.windowMin) && c in CellsIn(b, m) {
      RecentCellsBooked(b, now, s.windowMin, c);
    }
    forall c, riders: set<Passenger> | c in raw && BookedBy(b, s, now, c, riders)
      ensures raw[c] == SurgeFor(|riders|, free(c), s.sensitivity, s.minRequests, s.maxMultiplier).multiplier
    {
      BookedByOnly(b, s, now, c, riders);
    }
  }

  lemma BookedByOnly(b: Bookings, s: Settings, now: int, c: Cell, riders: set<Passenger>)
    requires BookedBy(b, s, now, c, riders)
    ensures riders == Riders(b, c, now, s.windowMin)
  {
    forall p ensures p in riders <==> p in Riders(b, c, now, s.windowMin) { RidersBooked(b, c, now, s.windowMin, p); }
  }

  // ------------------------------------------------------------------------------------------- what demand can do

  /** Booking again changes no count of riders: a passenger is counted once however often they book. */
  lemma {:induction false} RidersAreDistinct(b: Bookings, c: Cell, now: int, n: nat, minute: int, p: Passenger)
    requires now - n < minute <= now
    ensures Riders(Recorded(b, minute, c, p), c, now, n) == Riders(b, c, now, n) + {p}
  {
    if minute == now - (n - 1) {
      RidersElsewhere(b, c, now, n - 1, minute, c, p);
    } else {
      RidersAreDistinct(b, c, now, n - 1, minute, p);
    }
  }

  /** A booking in another cell, or outside the window, is not seen. */
  lemma {:induction false} RidersElsewhere(b: Bookings, c: Cell, now: int, n: nat, minute: int, c': Cell, p: Passenger)
    requires c != c' || minute <= now - n || minute > now
    ensures Riders(Recorded(b, minute, c', p), c, now, n) == Riders(b, c, now, n)
  {
    if n > 0 { RidersElsewhere(b, c, now, n - 1, minute, c', p); }
  }

  /** While nobody but one passenger books, nothing surges, whatever the settings and the supply. */
  lemma OnePassengerNeverSurges(b: Bookings, s: Settings, now: int, free: Cell -> nat, nbr: Neighbours, out: map<Cell, real>, p: Passenger)
    requires forall c :: Riders(b, c, now, s.windowMin) <= {p}
    requires IsSmoothed(RawMap(b, s, now, free), nbr, WEIGHT, out)
    ensures out == map[]
  {
    var raw := RawMap(b, s, now, free);
    forall c | c in raw ensures raw[c] == 1.0 {
      var riders := Riders(b, c, now, s.windowMin);
      assert |riders| <= 1 by { if p in riders { assert riders == {p}; } else { assert riders == {}; } }
      OneRiderNoSurge(|riders|, free(c), s.sensitivity, s.minRequests, s.maxMultiplier);
    }
    OneOnGrid();
    SmoothedBounds(raw, raw, nbr, WEIGHT, out, out, 1.0);
  }

  /** Every published multiplier is above 1 and at most the cap, rounded down to the 0.05 grid. */
  lemma PublishedWithinCap(b: Bookings, s: Settings, now: int, free: Cell -> nat, nbr: Neighbours, out: map<Cell, real>)
    requires s.sensitivity >= 0.0 && s.maxMultiplier >= 1.0
    requires IsSmoothed(RawMap(b, s, now, free), nbr, WEIGHT, out)
    ensures forall c | c in out :: 1.0 < out[c] <= Down05(s.maxMultiplier)
  {
    var raw, cap := RawMap(b, s, now, free), Down05(s.maxMultiplier);
    forall c | c in raw ensures raw[c] <= cap {
      SurgeInRange(|Riders(b, c, now, s.windowMin)|, free(c), s.sensitivity, s.minRequests, s.maxMultiplier);
    }
    SurgeInRange(0, 0, s.sensitivity, s.minRequests, s.maxMultiplier);
    SmoothedBounds(raw, raw, nbr, WEIGHT, out, out, cap);
  }
}
