/**
 * The decoder of Google's Encoded Polyline Algorithm Format (precision 5), over UTF-16 code units, with the 32-bit
 * integer operations of JavaScript; and the encoder it undoes. Coordinates are whole 1e-5 degrees.
 */
module Polyline {
  import opened JsMath

  /** A point in 1e-5 degrees. */
  datatype E5 = E5(lat: int, lng: int)

  datatype Point = Point(lat: real, lng: real)

  function ToPoint(p: E5): Point { Point(p.lat as real / 100000.0, p.lng as real / 100000.0) }

  function ToPoints(ps: seq<E5>): (q: seq<Point>)
    ensures |q| == |ps|
  {
    seq(|ps|, i requires 0 <= i < |ps| => ToPoint(ps[i]))
  }

  // ------------------------------------------------------------------------ 32-bit integers, as their bit patterns

  /** Bitwise or. */
  function BitOr(a: nat, b: nat): nat
    decreases a + b
  {
    if a == 0 && b == 0 then 0 else MaxI(a % 2, b % 2) + 2 * BitOr(a / 2, b / 2)
  }

  const WORD: nat := 0x1_0000_0000
  const HALF: nat := 0x8000_0000
  const RANGE: int := 0x4000_0000

  /** Shifted left `n` times, the top bit dropped each time. */
  function ShlBy(m: nat, n: nat): nat {
    if n == 0 then m else 2 * ShlBy(m, n - 1) % WORD
  }

  /** `m << shift`: the shift counts modulo 32. */
  function Shl(m: nat, shift: nat): nat { ShlBy(m, shift % 32) }

  /** A bit pattern read as a signed integer. */
  function Signed(bits: nat): int { if bits % WORD < HALF then bits % WORD else bits % WORD - WORD }

  /** `bits & 1 ? ~(bits >> 1) : bits >> 1` */
  function Unzigzag(bits: nat): int {
    var half := Signed(bits) / 2;
    if bits % 2 == 1 then -half - 1 else half
  }

  function Zigzag(v: int): nat { if v < 0 then -2 * v - 1 else 2 * v }

  predicate InRange(v: int) { -RANGE <= v < RANGE }

  /** What comes out of 32 bits fits 31. */
  lemma UnzigzagInRange(bits: nat)
    ensures InRange(Unzigzag(bits))
  {
  }

  /** A number survives zigzag and 32 bits exactly when it fits 31 bits. */
  lemma ZigzagRoundTrip(v: int)
    ensures Unzigzag(Zigzag(v)) == v <==> InRange(v)
  {
    UnzigzagInRange(Zigzag(v));
  }

  /**
   * The two word operations of the decoder: a group of five bits or-ed in at a shift, and the final number. The
   * decoder's structure is proved for any such pair, and then used with the 32-bit one.
   */
  datatype WordOps = WordOps(addGroup: (nat, int, nat) -> nat, finish: nat -> int)

  /** `result |= (byte & 0x1f) << shift`, where `& 0x1f` of a negative byte is its value modulo 32. */
  function AddGroup(bits: nat, byte: int, shift: nat): nat { BitOr(bits, Shl(byte % 32, shift)) }

  const Js: WordOps := WordOps((bits: nat, byte: int, shift: nat) => AddGroup(bits, byte, shift), (bits: nat) => Unzigzag(bits))

  // ----------------------------------------------------------------------------------------------- what is decoded

  /** A number read, and the code units after it. */
  datatype Read = Read(value: int, rest: seq<int>)

  /** One number from its 5-bit groups, least first; none when the text ends inside it. */
  function ReadNumber(w: WordOps, s: seq<int>, bits: nat, shift: nat): (r: Option<Read>)
    ensures r.Some? ==> |r.value.rest| < |s|
    decreases |s|
  {
    if s == [] then None
    else
      var byte := s[0] - 63;
      var bits' := w.addGroup(bits, byte, shift);
      if byte >= 0x20 then ReadNumber(w, s[1..], bits', shift + 5) else Some(Read(w.finish(bits'), s[1..]))
  }

  /** How a number is read off the front of a text. */
  type Reader = seq<int> -> Option<Read>

  function NextOf(w: WordOps): Reader { (s: seq<int>) => ReadNumber(w, s, 0, 0) }

  ghost predicate Shrinks(next: Reader) {
    forall s :: next(s).Some? ==> |next(s).value.rest| < |s|
  }

  function Decode(next: Reader, s: seq<int>, from: E5): seq<E5>
    requires Shrinks(next)
    decreases |s|
  {
    if s == [] then []
    else
      var lat := next(s);
      if lat.None? then []
      else
        var lng := next(lat.value.rest);
        if lng.None? then []
        else
          var p := E5(from.lat + lat.value.value, from.lng + lng.value.value);
          [p] + Decode(next, lng.value.rest, p)
  }

  /** `next()`: the number at `start`, and where it ends. */
  method Next(w: WordOps, encoded: seq<int>, start: nat) returns (value: Option<int>, index: nat)
    requires start <= |encoded|
    ensures start <= index <= |encoded|
    ensures match ReadNumber(w, encoded[start..], 0, 0)
            case None => value == None
            case Some(read) => value == Some(read.value) && encoded[index..] == read.rest && index > start
  {
    index := start;
    var result, shift := 0, 0;
    while true
      invariant start <= index <= |encoded|
      invariant ReadNumber(w, encoded[start..], 0, 0) == ReadNumber(w, encoded[index..], result, shift)
      decreases |encoded| - index
    {
      if index >= |encoded| { return None, index; }
      var byte := encoded[index] - 63;
      assert encoded[index..][1..] == encoded[index + 1..];
      index := index + 1;
      result := w.addGroup(result, byte, shift);
      shift := shift + 5;
      if byte < 0x20 { break; }
    }
    value := Some(w.finish(result));
  }

  lemma DecodeStep(next: Reader, s: seq<int>, from: E5, lat: Read, lng: Read)
    requires Shrinks(next) && next(s) == Some(lat) && next(lat.rest) == Some(lng)
    ensures var p := E5(from.lat + lat.value, from.lng + lng.value);
            Decode(next, s, from) == [p] + Decode(next, lng.rest, p)
  {
  }

  lemma DecodeEnds(next: Reader, s: seq<int>, from: E5)
    requires Shrinks(next) && (next(s).None? || next(next(s).value.rest).None?)
    ensures Decode(next, s, from) == []
  {
  }

  lemma ToPointsSnoc(ps: seq<E5>, p: E5)
    ensures ToPoints(ps + [p]) == ToPoints(ps) + [ToPoint(p)]
  {
  }

  lemma Regroup(done: seq<E5>, p: E5, tail: seq<E5>)
    ensures done + ([p] + tail) == (done + [p]) + tail
  {
  }

  /** One point: the next two numbers, if both are there. */
  method NextPoint(w: WordOps, encoded: seq<int>, index: nat, from: E5) returns (p: Option<E5>, end: nat)
    requires index < |encoded|
    ensures p.None? ==> Decode(NextOf(w), encoded[index..], from) == []
    ensures p.Some? ==> index < end <= |encoded| && Decode(NextOf(w), encoded[index..], from) == [p.value] + Decode(NextOf(w), encoded[end..], p.value)
  {
    var dLat, i := Next(w, encoded, index);
    var dLng, j := Next(w, encoded, i);
    if dLat.None? || dLng.None? {
      DecodeEnds(NextOf(w), encoded[index..], from);
      return None, j;
    }
    DecodeStep(NextOf(w), encoded[index..], from, Read(dLat.value, encoded[i..]), Read(dLng.value, encoded[j..]));
    return Some(E5(from.lat + dLat.value, from.lng + dLng.value)), j;
  }

  /** The decoder's loop: whole points, until the text ends or breaks off. */
  method DecodeWith(w: WordOps, encoded: seq<int>) returns (points: seq<Point>)
    ensures points == ToPoints(Decode(NextOf(w), encoded, E5(0, 0)))
  {
    points := [];
    var index, at := 0, E5(0, 0);
    ghost var done: seq<E5> := [];
    assert encoded[0..] == encoded;
    while index < |encoded|
      invariant index <= |encoded| && points == ToPoints(done)
      invariant Decode(NextOf(w), encoded, E5(0, 0)) == done + Decode(NextOf(w), encoded[index..], at)
      decreases |encoded| - index
    {
      var p, end := NextPoint(w, encoded, index, at);
      if p.None? { return; }
      Regroup(done, p.value, Decode(NextOf(w), encoded[end..], p.value));
      ToPointsSnoc(done, p.value);
      points, done := points + [ToPoint(p.value)], done + [p.value];
      at, index := p.value, end;
    }
  }

  method DecodePolyline(encoded: seq<int>) returns (points: seq<Point>)
    ensures points == ToPoints(Decode(NextOf(Js), encoded, E5(0, 0)))
  {
    points := DecodeWith(Js, encoded);
  }

  // ------------------------------------------------------------------------------------------------- the encoder

  function Groups(u: nat): (s: seq<int>)
    ensures s != []
  {
    if u >= 32 then [u % 32 + 32 + 63] + Groups(u / 32) else [u + 63]
  }

  /** How a number is written. */
  type Writer = int -> seq<int>

  const Google: Writer := (v: int) => Groups(Zigzag(v))

  function Encode(enc: Writer, ps: seq<E5>, from: E5): seq<int> {
    if ps == [] then []
    else enc(ps[0].lat - from.lat) + (enc(ps[0].lng - from.lng) + Encode(enc, ps[1..], ps[0]))
  }

  /** Every step from one point to the next fits 31 bits. */
  predicate StepsInRange(ps: seq<E5>, from: E5) {
    ps == [] || (InRange(ps[0].lat - from.lat) && InRange(ps[0].lng - from.lng) && StepsInRange(ps[1..], ps[0]))
  }

  lemma {:induction false} OrWithZero(m: nat)
    ensures BitOr(0, m) == m
  {
    if m > 0 { OrWithZero(m / 2); }
  }

  /** Bits below and bits from `s` up do not meet: or is plus. */
  lemma {:induction false} OrDisjoint(a: nat, m: nat, s: nat)
    requires a < Pow2(s)
    ensures BitOr(a, m * Pow2(s)) == a + m * Pow2(s)
    decreases s
  {
    if s == 0 {
      OrWithZero(m);
    } else {
      var b := m * Pow2(s - 1);
      assert m * Pow2(s) == 2 * b;
      OrDisjoint(a / 2, m, s - 1);
    }
  }

  lemma {:induction false} PowSum(a: nat, b: nat)
    ensures Pow2(a + b) == Pow2(a) * Pow2(b)
  {
    if a > 0 {
      PowSum(a - 1, b);
      assert Pow2(a) * Pow2(b) == 2 * (Pow2(a - 1) * Pow2(b));
    }
  }

  lemma PowFive(shift: nat)
    ensures Pow2(shift + 5) == 32 * Pow2(shift)
  {
    PowSum(5, shift);
    assert Pow2(5) == 32;
  }

  /** `u` in the k-th group of five bits: u x 32^k. */
  function Scaled(u: nat, k: nat): nat
    requires k <= 6
  {
    if k == 0 then u else if k == 1 then 32 * u else if k == 2 then 1024 * u else if k == 3 then 32_768 * u
    else if k == 4 then 1_048_576 * u else if k == 5 then 33_554_432 * u else 1_073_741_824 * u
  }

  function Weight(k: nat): nat
    requires k <= 6
  {
    Scaled(1, k)
  }

  lemma {:induction false} WeightIsPow(k: nat)
    requires k <= 6
    ensures Pow2(5 * k) == Weight(k)
  {
    if k > 0 {
      WeightIsPow(k - 1);
      PowFive(5 * (k - 1));
    }
  }

  lemma TwicePow(m: nat, n: nat)
    requires n > 0
    ensures m * Pow2(n) == 2 * (m * Pow2(n - 1)) && m * Pow2(n - 1) >= 0
  {
  }

  lemma DoubledInWord(x: nat)
    requires 2 * x < WORD
    ensures 2 * x % WORD == 2 * x && x < WORD
  {
  }

  /** Without wrapping, a shift multiplies. */
  lemma {:induction false} ShlMultiplies(m: nat, n: nat)
    requires m * Pow2(n) < WORD
    ensures ShlBy(m, n) == m * Pow2(n)
  {
    if n > 0 {
      TwicePow(m, n);
      DoubledInWord(m * Pow2(n - 1));
      ShlMultiplies(m, n - 1);
    }
  }

  /** Without wrapping, one group adds its five bits. */
  lemma GroupAdds(acc: nat, g: nat, k: nat)
    requires k <= 6 && acc < Weight(k) && Scaled(g, k) < WORD
    ensures BitOr(acc, Shl(g, 5 * k)) == acc + Scaled(g, k)
  {
    WeightIsPow(k);
    assert 5 * k % 32 == 5 * k;
    assert g * Pow2(5 * k) == Scaled(g, k);
    ShlMultiplies(g, 5 * k);
    OrDisjoint(acc, g, 5 * k);
  }

  lemma OneGroup(w: WordOps, byte: int, rest: seq<int>, bits: nat, shift: nat)
    ensures ReadNumber(w, [byte + 63] + rest, bits, shift) ==
            if byte >= 32 then ReadNumber(w, rest, w.addGroup(bits, byte, shift), shift + 5)
            else Some(Read(w.finish(w.addGroup(bits, byte, shift)), rest))
  {
    var s := [byte + 63] + rest;
    assert s[0] == byte + 63 && s[1..] == rest;
  }

  lemma GroupsStep(u: nat, rest: seq<int>)
    ensures Groups(u) + rest == if u >= 32 then [u % 32 + 32 + 63] + (Groups(u / 32) + rest) else [u + 63] + rest
  {
  }

  /** Word operations that add up groups which fit the word. */
  ghost predicate AddsGroups(w: WordOps) {
    forall acc, byte, k | 0 <= k <= 6 && 0 <= acc < Weight(k) && Scaled(byte % 32, k) < WORD ::
      w.addGroup(acc, byte, 5 * k) == acc + Scaled(byte % 32, k)
  }

  lemma JsAddsGroups()
    ensures AddsGroups(Js)
  {
    forall acc, byte, k | 0 <= k <= 6 && 0 <= acc < Weight(k) && Scaled(byte % 32, k) < WORD
      ensures Js.addGroup(acc, byte, 5 * k) == acc + Scaled(byte % 32, k)
    {
      GroupAdds(acc, byte % 32, k);
    }
  }

  lemma LastGroupRead(w: WordOps, u: nat, rest: seq<int>, acc: nat, k: nat)
    requires AddsGroups(w) && k <= 6 && acc < Weight(k) && u < 32 && Scaled(u, k) < WORD
    ensures ReadNumber(w, Groups(u) + rest, acc, 5 * k) == Some(Read(w.finish(acc + Scaled(u, k)), rest))
  {
    GroupsStep(u, rest);
    OneGroup(w, u, rest, acc, 5 * k);
    assert u % 32 == u;
  }

  lemma FirstGroupAt(w: WordOps, g: nat, q: nat, rest: seq<int>, acc: nat, k: nat)
    requires AddsGroups(w) && k <= 6 && acc < Weight(k) && g < 32 && q > 0 && Scaled(g, k) < WORD
    ensures ReadNumber(w, Groups(32 * q + g) + rest, acc, 5 * k) == ReadNumber(w, Groups(q) + rest, acc + Scaled(g, k), 5 * k + 5)
  {
    FirstGroupText(g, q, rest);
    OneGroup(w, g + 32, Groups(q) + rest, acc, 5 * k);
    assert (g + 32) % 32 == g;
  }

  lemma FirstGroupText(g: nat, q: nat, rest: seq<int>)
    requires g < 32 && q > 0
    ensures Groups(32 * q + g) + rest == [g + 32 + 63] + (Groups(q) + rest)
  {
    GroupOnce(32 * q + g, g, q);
  }

  /** What is added up so far, and `u` yet to be read in the k-th group and after, fit the word and make `total`. */
  predicate Reading(u: nat, acc: nat, k: nat, total: nat) {
    k <= 6 && acc < Weight(k) && Scaled(u, k) < WORD && total == acc + Scaled(u, k)
  }

  /** After one group: what is left to read, and what has been added up. */
  lemma FirstGroupRead(w: WordOps, u: nat, rest: seq<int>, acc: nat, k: nat, total: nat) returns (q: nat, sum: nat)
    requires AddsGroups(w) && Reading(u, acc, k, total) && u >= 32
    ensures q < u && Reading(q, sum, k + 1, total)
    ensures ReadNumber(w, Groups(u) + rest, acc, 5 * k) == ReadNumber(w, Groups(q) + rest, sum, 5 * k + 5)
  {
    var g := u % 32;
    q := u / 32;
    NextWeight(u, g, q, k);
    sum := acc + Scaled(g, k);
    FirstGroupAt(w, g, q, rest, acc, k);
  }

  /** Reading back the groups of a number that fits the word. */
  lemma {:induction false} GroupsRead(w: WordOps, u: nat, rest: seq<int>, acc: nat, k: nat, total: nat)
    requires AddsGroups(w) && Reading(u, acc, k, total)
    ensures ReadNumber(w, Groups(u) + rest, acc, 5 * k) == Some(Read(w.finish(total), rest))
    decreases u
  {
    if u < 32 {
      LastGroupRead(w, u, rest, acc, k);
    } else {
      var q, sum := FirstGroupRead(w, u, rest, acc, k, total);
      GroupsRead(w, q, rest, sum, k + 1, total);
    }
  }

  lemma NextWeight(u: nat, g: nat, q: nat, k: nat)
    requires k <= 6 && u == 32 * q + g && g < 32 && u >= 32 && Scaled(u, k) < WORD
    ensures k + 1 <= 6 && Scaled(u, k) == Scaled(g, k) + Scaled(q, k + 1)
    ensures Scaled(g, k) < WORD && Scaled(g, k) + Weight(k) <= Weight(k + 1)
  {
  }

  // ------------------------------------------------------------------------------------------------ the round trip

  /** Whatever the number, its groups are read to their end, and what is read fits 31 bits. */
  lemma {:induction false} GroupsAreConsumed(w: WordOps, u: nat, rest: seq<int>, bits: nat, shift: nat)
    requires forall b :: InRange(w.finish(b))
    ensures var r := ReadNumber(w, Groups(u) + rest, bits, shift); r.Some? && r.value.rest == rest && InRange(r.value.value)
    decreases u
  {
    GroupsStep(u, rest);
    if u < 32 {
      OneGroup(w, u, rest, bits, shift);
    } else {
      OneGroup(w, u % 32 + 32, Groups(u / 32) + rest, bits, shift);
      GroupsAreConsumed(w, u / 32, rest, w.addGroup(bits, u % 32 + 32, shift), shift + 5);
    }
  }

  /** The groups of a number cut short are no number. */
  lemma {:induction false} CutGroupsAreNone(w: WordOps, u: nat, n: nat, bits: nat, shift: nat)
    requires n < |Groups(u)|
    ensures ReadNumber(w, Groups(u)[..n], bits, shift) == None
    decreases u
  {
    if n > 0 {
      assert u >= 32;
      assert Groups(u)[..n] == [u % 32 + 32 + 63] + Groups(u / 32)[..n - 1];
      OneGroup(w, u % 32 + 32, Groups(u / 32)[..n - 1], bits, shift);
      CutGroupsAreNone(w, u / 32, n - 1, w.addGroup(bits, u % 32 + 32, shift), shift + 5);
    }
  }

  /**
   * A number is read back as it was written exactly when it fits 31 bits, and its groups cut short are no number.
   * The rest is proved for any decoder and encoder of numbers that fit together so.
   */
  ghost predicate ReadsBack(next: Reader, enc: Writer) {
    && Shrinks(next)
    && (forall v, rest :: ReadsBackAt(next, enc, v, rest))
    && (forall v, n :: CutIsNone(next, enc, v, n))
  }

  ghost predicate ReadsBackAt(next: Reader, enc: Writer, v: int, rest: seq<int>) {
    var r := next(enc(v) + rest);
    r.Some? && r.value.rest == rest && (r.value.value == v <==> InRange(v))
  }

  ghost predicate CutIsNone(next: Reader, enc: Writer, v: int, n: nat) {
    n < |enc(v)| ==> next(enc(v)[..n]) == None
  }

  lemma JsReadsBackAt(v: int, rest: seq<int>)
    ensures ReadsBackAt(NextOf(Js), Google, v, rest)
  {
    JsAddsGroups();
    forall b ensures InRange(Js.finish(b)) { UnzigzagInRange(b); }
    GroupsAreConsumed(Js, Zigzag(v), rest, 0, 0);
    if InRange(v) {
      GroupsRead(Js, Zigzag(v), rest, 0, 0, Zigzag(v));
      ZigzagRoundTrip(v);
    }
  }

  lemma JsReadsBack()
    ensures ReadsBack(NextOf(Js), Google)
  {
    forall v, rest ensures ReadsBackAt(NextOf(Js), Google, v, rest) { JsReadsBackAt(v, rest); }
    forall v, n: nat ensures CutIsNone(NextOf(Js), Google, v, n) {
      if n < |Google(v)| { CutGroupsAreNone(Js, Zigzag(v), n, 0, 0); }
    }
  }

  /** The point the first two numbers give: the one written, exactly when both numbers fit 31 bits. */
  lemma DecodePair(next: Reader, enc: Writer, lat: int, lng: int, from: E5, rest: seq<int>) returns (p: E5)
    requires ReadsBack(next, enc)
    ensures Decode(next, enc(lat) + (enc(lng) + rest), from) == [p] + Decode(next, rest, p)
    ensures p == E5(from.lat + lat, from.lng + lng) <==> InRange(lat) && InRange(lng)
  {
    assert ReadsBackAt(next, enc, lat, enc(lng) + rest) && ReadsBackAt(next, enc, lng, rest);
    var x := next(enc(lat) + (enc(lng) + rest)).value;
    var y := next(enc(lng) + rest).value;
    p := E5(from.lat + x.value, from.lng + y.value);
    DecodeStep(next, enc(lat) + (enc(lng) + rest), from, x, y);
  }

  lemma ConsEq(p: E5, tail: seq<E5>, ps: seq<E5>)
    requires ps != []
    ensures [p] + tail == ps <==> p == ps[0] && tail == ps[1..]
  {
  }

  /** Decoding an encoding gives the points back exactly when every step between them fits 31 bits. */
  lemma {:induction false} DecodeEncodeIff(next: Reader, enc: Writer, ps: seq<E5>, from: E5)
    requires ReadsBack(next, enc)
    ensures Decode(next, Encode(enc, ps, from), from) == ps <==> StepsInRange(ps, from)
    decreases |ps|
  {
    if ps != [] {
      var lat, lng, tail := ps[0].lat - from.lat, ps[0].lng - from.lng, Encode(enc, ps[1..], ps[0]);
      var p := DecodePair(next, enc, lat, lng, from, tail);
      DecodeEncodeIff(next, enc, ps[1..], ps[0]);
      ConsEq(p, Decode(next, tail, p), ps);
    }
  }

  /** Every point on Earth: latitudes within 90 degrees, longitudes within 180. */
  predicate OnEarth(p: E5) { -9_000_000 <= p.lat <= 9_000_000 && -18_000_000 <= p.lng <= 18_000_000 }

  lemma {:induction false} EarthStepsInRange(ps: seq<E5>, from: E5)
    requires OnEarth(from) && forall i | 0 <= i < |ps| :: OnEarth(ps[i])
    ensures StepsInRange(ps, from)
    decreases |ps|
  {
    if ps != [] { EarthStepsInRange(ps[1..], ps[0]); }
  }

  /** The code's decoder undoes Google's encoder exactly on the paths whose steps fit 31 bits: on all paths on Earth. */
  lemma PolylineRoundTrip(ps: seq<E5>)
    ensures Decode(NextOf(Js), Encode(Google, ps, E5(0, 0)), E5(0, 0)) == ps <==> StepsInRange(ps, E5(0, 0))
    ensures (forall i | 0 <= i < |ps| :: OnEarth(ps[i])) ==> StepsInRange(ps, E5(0, 0))
  {
    JsReadsBack();
    if forall i | 0 <= i < |ps| :: OnEarth(ps[i]) { EarthStepsInRange(ps, E5(0, 0)); }
    DecodeEncodeIff(NextOf(Js), Google, ps, E5(0, 0));
  }

  // --------------------------------------------------------------------------------------------- points in degrees

  /** A path on Earth comes back point by point, in degrees: latitude and longitude each as they were written. */
  lemma DegreesComeBack(ps: seq<E5>)
    requires forall i | 0 <= i < |ps| :: OnEarth(ps[i])
    ensures var q := ToPoints(Decode(NextOf(Js), Encode(Google, ps, E5(0, 0)), E5(0, 0)));
            |q| == |ps| && forall i | 0 <= i < |ps| :: q[i].lat * 100000.0 == ps[i].lat as real && q[i].lng * 100000.0 == ps[i].lng as real
  {
    PolylineRoundTrip(ps);
  }

  /** `charCodeAt` of each place. */
  function CodeUnits(s: string): (u: seq<int>)
    ensures |u| == |s|
  {
    seq(|s|, i requires 0 <= i < |s| => s[i] as int)
  }

  const EXAMPLE := [E5(3_850_000, -12_020_000), E5(4_070_000, -12_095_000), E5(4_325_200, -12_645_300)]

  lemma GroupOnce(u: nat, low: nat, rest: nat)
    requires u == 32 * rest + low && low < 32 && rest > 0
    ensures Groups(u) == [low + 95] + Groups(rest)
  {
  }

  lemma LatitudesOfExample()
    ensures Groups(7_700_000) == CodeUnits("_p~iF") && Groups(440_000) == CodeUnits("_ulL") && Groups(510_400) == CodeUnits("_mqN")
  {
    GroupOnce(7_700_000, 0, 240_625); GroupOnce(240_625, 17, 7_519); GroupOnce(7_519, 31, 234); GroupOnce(234, 10, 7);
    GroupOnce(440_000, 0, 13_750); GroupOnce(13_750, 22, 429); GroupOnce(429, 13, 13);
    GroupOnce(510_400, 0, 15_950); GroupOnce(15_950, 14, 498); GroupOnce(498, 18, 15);
  }

  lemma LongitudesOfExample()
    ensures Groups(24_039_999) == CodeUnits("~ps|U") && Groups(149_999) == CodeUnits("nnqC") && Groups(1_100_599) == CodeUnits("vxq`@")
  {
    GroupOnce(24_039_999, 31, 751_249); GroupOnce(751_249, 17, 23_476); GroupOnce(23_476, 20, 733); GroupOnce(733, 29, 22);
    GroupOnce(149_999, 15, 4_687); GroupOnce(4_687, 15, 146); GroupOnce(146, 18, 4);
    GroupOnce(1_100_599, 23, 34_393); GroupOnce(34_393, 25, 1_074); GroupOnce(1_074, 18, 33); GroupOnce(33, 1, 1);
  }

  /** Encoding three steps. */
  lemma EncodeThree(enc: Writer, a: E5, b: E5, c: E5)
    ensures Encode(enc, [a, b, c], E5(0, 0)) ==
            enc(a.lat) + enc(a.lng) + (enc(b.lat - a.lat) + enc(b.lng - a.lng) + (enc(c.lat - b.lat) + enc(c.lng - b.lng)))
  {
    assert [a, b, c][1..] == [b, c] && [b, c][1..] == [c] && [c][1..] == [];
    assert Encode(enc, [c], b) == enc(c.lat - b.lat) + enc(c.lng - b.lng);
    assert Encode(enc, [b, c], a) == enc(b.lat - a.lat) + enc(b.lng - a.lng) + Encode(enc, [c], b);
  }

  lemma JoinUnits(a: string, b: string, c: string, d: string, e: string, f: string)
    ensures CodeUnits(a) + CodeUnits(b) + (CodeUnits(c) + CodeUnits(d) + (CodeUnits(e) + CodeUnits(f))) == CodeUnits(a + b + c + d + e + f)
  {
  }

  lemma ExampleText()
    ensures "_p~iF" + "~ps|U" + "_ulL" + "nnqC" + "_mqN" + "vxq`@" == "_p~iF~ps|U_ulLnnqC_mqNvxq`@"
  {
  }

  lemma StepsOfExample()
    ensures Google(3_850_000) == CodeUnits("_p~iF") && Google(220_000) == CodeUnits("_ulL") && Google(255_200) == CodeUnits("_mqN")
    ensures Google(-12_020_000) == CodeUnits("~ps|U") && Google(-75_000) == CodeUnits("nnqC") && Google(-550_300) == CodeUnits("vxq`@")
  {
    LatitudesOfExample();
    LongitudesOfExample();
  }

  lemma ThreeEncode(enc: Writer, a: E5, b: E5, c: E5, u: string, v: string, w: string, x: string, y: string, z: string)
    requires enc(a.lat) == CodeUnits(u) && enc(a.lng) == CodeUnits(v) && enc(b.lat - a.lat) == CodeUnits(w)
    requires enc(b.lng - a.lng) == CodeUnits(x) && enc(c.lat - b.lat) == CodeUnits(y) && enc(c.lng - b.lng) == CodeUnits(z)
    ensures Encode(enc, [a, b, c], E5(0, 0)) == CodeUnits(u + v + w + x + y + z)
  {
    EncodeThree(enc, a, b, c);
    JoinUnits(u, v, w, x, y, z);
  }

  lemma ExampleEncodes()
    ensures Encode(Google, EXAMPLE, E5(0, 0)) == CodeUnits("_p~iF~ps|U_ulLnnqC_mqNvxq`@")
  {
    StepsOfExample();
    ThreeEncode(Google, EXAMPLE[0], EXAMPLE[1], EXAMPLE[2], "_p~iF", "~ps|U", "_ulL", "nnqC", "_mqN", "vxq`@");
    ExampleText();
  }

  lemma ExampleInDegrees()
    ensures ToPoints(EXAMPLE) == [Point(38.5, -120.2), Point(40.7, -120.95), Point(43.252, -126.453)]
  {
  }

  /** The text that the format's own description gives for its three points decodes to them. */
  lemma PublishedExample()
    ensures ToPoints(Decode(NextOf(Js), CodeUnits("_p~iF~ps|U_ulLnnqC_mqNvxq`@"), E5(0, 0))) ==
            [Point(38.5, -120.2), Point(40.7, -120.95), Point(43.252, -126.453)]
  {
    ExampleEncodes();
    PolylineRoundTrip(EXAMPLE);
    EarthStepsInRange(EXAMPLE, E5(0, 0));
    ExampleInDegrees();
  }

  // ------------------------------------------------------------------------------------------- encodings cut short

  /** The code units of one point. */
  function PointSize(enc: Writer, p: E5, from: E5): nat { |enc(p.lat - from.lat)| + |enc(p.lng - from.lng)| }

  /** How many whole points an encoding cut at `n` holds. */
  function WholePoints(enc: Writer, ps: seq<E5>, from: E5, n: nat): (m: nat)
    ensures m <= |ps|
    decreases |ps|
  {
    if ps == [] || n < PointSize(enc, ps[0], from) then 0
    else 1 + WholePoints(enc, ps[1..], ps[0], n - PointSize(enc, ps[0], from))
  }

  lemma CutInPoint(next: Reader, enc: Writer, lat: int, lng: int, tail: seq<int>, from: E5, n: nat)
    requires ReadsBack(next, enc) && n < |enc(lat)| + |enc(lng)|
    ensures Decode(next, (enc(lat) + (enc(lng) + tail))[..n], from) == []
  {
    var s := (enc(lat) + (enc(lng) + tail))[..n];
    if n < |enc(lat)| {
      assert s == enc(lat)[..n];
      assert CutIsNone(next, enc, lat, n);
    } else {
      var m := n - |enc(lat)|;
      assert s == enc(lat) + enc(lng)[..m];
      assert ReadsBackAt(next, enc, lat, enc(lng)[..m]) && CutIsNone(next, enc, lng, m);
    }
    assert next(s).None? || next(next(s).value.rest).None?;
  }

  lemma CutTail(a: seq<int>, b: seq<int>, tail: seq<int>, n: nat)
    requires |a| + |b| <= n <= |a| + |b| + |tail|
    ensures (a + (b + tail))[..n] == a + (b + tail[..n - |a| - |b|])
  {
  }

  lemma PrefixCons(ps: seq<E5>, k: nat)
    requires ps != [] && k <= |ps| - 1
    ensures ps[..k + 1] == [ps[0]] + ps[1..][..k]
  {
  }

  /** One whole point, then what the cut rest decodes to. */
  lemma CutStep(next: Reader, enc: Writer, ps: seq<E5>, from: E5, cut: seq<int>, m: nat)
    requires ReadsBack(next, enc) && ps != [] && m <= |ps| - 1 && InRange(ps[0].lat - from.lat) && InRange(ps[0].lng - from.lng)
    requires Decode(next, cut, ps[0]) == ps[1..][..m]
    ensures Decode(next, enc(ps[0].lat - from.lat) + (enc(ps[0].lng - from.lng) + cut), from) == ps[..m + 1]
  {
    var p := DecodePair(next, enc, ps[0].lat - from.lat, ps[0].lng - from.lng, from, cut);
    assert p == ps[0];
    PrefixCons(ps, m);
  }

  /** Cut anywhere, an encoding decodes to exactly the points that are whole. */
  lemma {:induction false} CutDecodesToPrefix(next: Reader, enc: Writer, ps: seq<E5>, from: E5, n: nat)
    requires ReadsBack(next, enc) && StepsInRange(ps, from) && n <= |Encode(enc, ps, from)|
    ensures Decode(next, Encode(enc, ps, from)[..n], from) == ps[..WholePoints(enc, ps, from, n)]
    decreases |ps|
  {
    if ps != [] {
      var lat, lng, tail := ps[0].lat - from.lat, ps[0].lng - from.lng, Encode(enc, ps[1..], ps[0]);
      var len := PointSize(enc, ps[0], from);
      if n < len {
        CutInPoint(next, enc, lat, lng, tail, from, n);
      } else {
        CutDecodesToPrefix(next, enc, ps[1..], ps[0], n - len);
        CutStep(next, enc, ps, from, tail[..n - len], WholePoints(enc, ps[1..], ps[0], n - len));
        CutTail(enc(lat), enc(lng), tail, n);
      }
    }
  }

  /** The code's decoder on a path on Earth whose encoding broke off. */
  lemma PolylineCutShort(ps: seq<E5>, n: nat)
    requires (forall i | 0 <= i < |ps| :: OnEarth(ps[i])) && n <= |Encode(Google, ps, E5(0, 0))|
    ensures Decode(NextOf(Js), Encode(Google, ps, E5(0, 0))[..n], E5(0, 0)) == ps[..WholePoints(Google, ps, E5(0, 0), n)]
  {
    JsReadsBack();
    EarthStepsInRange(ps, E5(0, 0));
    CutDecodesToPrefix(NextOf(Js), Google, ps, E5(0, 0), n);
  }
}
