/**
 * The driver's account across the services that write it: registration, documents, admin decisions, going online
 * and offline, the state cache, the dispatch index and busy flags. Each service call is one step.
 */
module DriverLifecycle {
  import opened JsMath
  import opened Collections
  import opened DriverApproval

  type Id = string

  /** The database row of a driver with the parts of the user and documents that decide their status. */
  datatype Row = Row(
    status: DriverStatus, isOnline: bool, kind: string, plate: string,
    docs: Docs, identity: Identity, isBlocked: bool, blockedUntil: int, hasPhoto: bool)

  datatype Cached = Cached(isOnline: bool, kind: string, isBlocked: bool)

  /** A trip a busy flag may name: whose it is, and whether it is under way. */
  datatype Trip = Trip(driver: Id, isOn: bool)

  datatype World = World(rows: map<Id, Row>, cache: map<Id, Cached>, dispatch: set<Id>, busy: map<Id, string>, trips: map<string, Trip>)

  /** Settings and the identity provider. */
  datatype Env = Env(isDidit: bool, autoApprove: bool)

  datatype Outcome = Done | NotFound | BadRequest | Conflict | Forbidden

  /** What the row, the cache and the index say of one driver. */
  datatype View = View(row: Option<Row>, cached: Option<Cached>, inDispatch: bool)

  function Of(w: World, d: Id): View {
    View(if d in w.rows then Some(w.rows[d]) else None, if d in w.cache then Some(w.cache[d]) else None, d in w.dispatch)
  }

  /** Online means approved, in dispatch means online, and a cached state agrees with the row. */
  predicate ViewSafe(v: View) {
    && (v.row.Some? && v.row.value.isOnline ==> v.row.value.status == APPROVED)
    && (v.inDispatch ==> v.row.Some? && v.row.value.isOnline)
    && (v.cached.Some? ==> v.row.Some? && Agrees(v.cached.value, v.row.value))
  }

  ghost predicate Safe(w: World) { forall d :: ViewSafe(Of(w, d)) }

  predicate Agrees(c: Cached, r: Row) {
    c.isOnline == r.isOnline && c.kind == r.kind && (c.isOnline ==> c.isBlocked == r.isBlocked)
  }

  const Empty: World := World(map[], map[], {}, map[], map[])

  // ------------------------------------------------------------------------------------------ the building blocks

  function SetRow(w: World, d: Id, r: Row): World { w.(rows := w.rows[d := r]) }

  function Invalidate(w: World, d: Id): World { w.(cache := w.cache - {d}) }

  function GoOffline(w: World, d: Id): World
    requires d in w.rows
  {
    var r := w.rows[d].(isOnline := false);
    w.(rows := w.rows[d := r], cache := w.cache[d := Cached(false, r.kind, false)], dispatch := w.dispatch - {d})
  }

  /** Applies the current status: out of dispatch unless approved (or when told so). */
  function Changed(w: World, d: Id, offline: bool): World
    requires d in w.rows
  {
    if offline || w.rows[d].status != APPROVED then Invalidate(GoOffline(w, d), d) else w
  }

  function WithStatus(r: Row, status: DriverStatus): Row {
    r.(status := status, isOnline := if status == APPROVED then r.isOnline else false)
  }

  function Next(env: Env, r: Row): DriverStatus {
    NextDriverStatus(r.status, r.docs, r.identity, env.isDidit, env.autoApprove)
  }

  /** A status from the papers; when it is new, the row, the cache and (unless its listener fails) dispatch follow. */
  function Apply(w: World, d: Id, next: DriverStatus, listenerOk: bool): World
    requires d in w.rows
  {
    if next == w.rows[d].status then w
    else
      var w' := Invalidate(SetRow(w, d, WithStatus(w.rows[d], next)), d);
      if listenerOk then Changed(w', d, false) else w'
  }

  function Recompute(env: Env, w: World, d: Id, listenerOk: bool): World
    requires d in w.rows
  {
    Apply(w, d, Next(env, w.rows[d]), listenerOk)
  }

  function OnTrip(w: World, d: Id): bool {
    exists t | t in w.trips :: w.trips[t] == Trip(d, true)
  }

  /** A busy flag left over from a trip that has ended, or is not theirs, is dropped. */
  function FreeIfStale(w: World, d: Id): World {
    if d in w.busy && !(w.busy[d] in w.trips && w.trips[w.busy[d]] == Trip(d, true)) then w.(busy := w.busy - {d}) else w
  }

  // -------------------------------------------------------------------------------------------------- service calls

  /** Admins can't register; a user who already has a driver gets that one; a plate another driver has is refused. */
  function Register(w: World, d: Id, isAdmin: bool, kind: string, plate: string, identity: Identity): (World, Outcome) {
    if isAdmin then (w, Forbidden)
    else if d in w.rows then (w, Done)
    else if exists o | o in w.rows :: w.rows[o].plate == Upper(plate) then (w, Conflict)
    else (SetRow(w, d, Row(PENDING, false, kind, Upper(plate), map[VEHICLE_RC := NOT_UPLOADED, INSURANCE := NOT_UPLOADED], identity, false, 0, false)), Done)
  }

  function Upload(env: Env, w: World, d: Id, t: DocType): (World, Outcome) {
    if t !in REQUIRED_DOCS then (w, BadRequest)
    else if d !in w.rows then (w, NotFound)
    else (Recompute(env, SetRow(w, d, w.rows[d].(docs := w.rows[d].docs[t := UNDER_REVIEW])), d, true), Done)
  }

  function Review(env: Env, w: World, d: Id, t: DocType, verified: bool): (World, Outcome) {
    if d !in w.rows || t !in w.rows[d].docs then (w, NotFound)
    else if w.rows[d].docs[t] == NOT_UPLOADED then (w, BadRequest)
    else (Recompute(env, SetRow(w, d, w.rows[d].(docs := w.rows[d].docs[t := if verified then VERIFIED else DOC_REJECTED])), d, true), Done)
  }

  function IdentityResult(env: Env, w: World, d: Id, identity: Identity): (World, Outcome) {
    if d !in w.rows then (w, NotFound)
    else (Recompute(env, SetRow(w, d, w.rows[d].(identity := identity)), d, true), Done)
  }

  function SetStatus(w: World, d: Id, status: DriverStatus): (World, Outcome) {
    if d !in w.rows then (w, NotFound)
    else (Changed(Invalidate(SetRow(w, d, WithStatus(w.rows[d], status)), d), d, false), Done)
  }

  predicate Ready(env: Env, w: World, d: Id) {
    && d in w.rows && w.rows[d].status == PENDING
    && ApprovalChecklist(w.rows[d].docs, w.rows[d].identity, env.isDidit).isReady
  }

  function ApproveOne(env: Env, w: World, d: Id): World {
    if Ready(env, w, d) then Changed(Invalidate(SetRow(w, d, w.rows[d].(status := APPROVED)), d), d, false) else w
  }

  function ApproveAll(env: Env, w: World, ids: seq<Id>): World {
    if ids == [] then w else ApproveOne(env, ApproveAll(env, w, ids[..|ids| - 1]), ids[|ids| - 1])
  }

  predicate IsNewPlate(r: Row, plate: string) { !SamePlate(plate, r.plate) }

  predicate LeavesApproval(r: Row, plate: string) { IsNewPlate(r, plate) && (r.status == APPROVED || r.status == ON_HOLD) }

  /** A new plate is a new vehicle: the RC is asked for again, and an approved or held driver starts over, offline. */
  function NewVehicle(r: Row, plate: string): Row {
    var leaves := LeavesApproval(r, plate);
    var resetsRc := IsNewPlate(r, plate) && (leaves || (VEHICLE_RC in r.docs && r.docs[VEHICLE_RC] != NOT_UPLOADED));
    r.(plate := if IsNewPlate(r, plate) then Upper(plate) else r.plate,
       status := if leaves then PENDING else r.status,
       isOnline := if leaves then false else r.isOnline,
       docs := if resetsRc then r.docs[VEHICLE_RC := NOT_UPLOADED] else r.docs)
  }

  lemma NotApprovedWithoutRc(env: Env, r: Row)
    requires DocState(r.docs, VEHICLE_RC) != DONE && r.status != APPROVED
    ensures Next(env, r) != APPROVED && !ApprovalChecklist(r.docs, r.identity, env.isDidit).isReady
  {
    ChecklistMeans(r.docs, r.identity, env.isDidit);
    NextStatusMeans(r.status, r.docs, r.identity, env.isDidit, env.autoApprove);
  }

  lemma NewPlateAsksForRc(r: Row, plate: string)
    requires IsNewPlate(r, plate)
    ensures var r' := NewVehicle(r, plate);
            && r'.plate == Upper(plate) && r'.status != APPROVED && DocState(r'.docs, VEHICLE_RC) != DONE
            && ((r.isOnline ==> r.status == APPROVED) ==> !r'.isOnline)
            && (forall t | t != VEHICLE_RC :: DocState(r'.docs, t) == DocState(r.docs, t))
  {
  }

  /**
   * A driver with a new plate waits for its RC: whatever their papers were, they are not approved, cannot be approved
   * from the papers they have, and are not online; only the RC is asked for again. The same plate typed differently
   * changes nothing.
   */
  lemma NewPlateWaitsForRc(env: Env, r: Row, plate: string)
    ensures var r' := NewVehicle(r, plate);
            if IsNewPlate(r, plate) then
              && r'.plate == Upper(plate) && r'.status != APPROVED && DocState(r'.docs, VEHICLE_RC) != DONE
              && Next(env, r') != APPROVED && !ApprovalChecklist(r'.docs, r'.identity, env.isDidit).isReady
              && ((r.isOnline ==> r.status == APPROVED) ==> !r'.isOnline)
              && (forall t | t != VEHICLE_RC :: DocState(r'.docs, t) == DocState(r.docs, t))
            else r' == r
  {
    if IsNewPlate(r, plate) {
      NewPlateAsksForRc(r, plate);
      NotApprovedWithoutRc(env, NewVehicle(r, plate));
    }
  }

  function ChangePlate(w: World, d: Id, plate: string): (World, Outcome) {
    if d !in w.rows then (w, NotFound)
    else
      var r := w.rows[d];
      if LeavesApproval(r, plate) && OnTrip(w, d) then (w, Conflict)
      else if IsNewPlate(r, plate) && exists o | o in w.rows :: o != d && w.rows[o].plate == Upper(plate) then (w, Conflict)
      else
        var w' := SetRow(w, d, NewVehicle(r, plate));
        (Invalidate(if LeavesApproval(r, plate) then GoOffline(w', d) else w', d), Done)
  }

  function UpperChar(c: char): char { if 'a' <= c <= 'z' then c - 32 as char else c }

  function Upper(s: string): string {
    if s == "" then "" else [UpperChar(s[0])] + Upper(s[1..])
  }

  /** ASCII white space, vertical tab and form feed included. */
  predicate IsSpace(c: char) { c in " \t\n\r\U{B}\U{C}" }

  /** Letters upper-cased, white space dropped. */
  function Plain(s: string): string {
    if s == "" then ""
    else (if IsSpace(s[0]) then "" else [UpperChar(s[0])]) + Plain(s[1..])
  }

  predicate SamePlate(a: string, b: string) { Plain(a) == Plain(b) }

  /** Each run of white space as one space. */
  function Squeeze(s: string): string {
    if s == "" then ""
    else if !IsSpace(s[0]) then [s[0]] + Squeeze(s[1..])
    else if |s| > 1 && IsSpace(s[1]) then Squeeze(s[1..])
    else " " + Squeeze(s[1..])
  }

  function Trim(s: string): string {
    if s != "" && IsSpace(s[0]) then Trim(s[1..])
    else if s != "" && IsSpace(s[|s| - 1]) then Trim(s[..|s| - 1])
    else s
  }

  /** The plate an admin types, as it is stored. */
  function Tidy(plate: string): string { Trim(Squeeze(Upper(plate))) }

  function Edited(r: Row, kind: Option<string>, plate: Option<string>): Row {
    r.(kind := if kind.Some? then kind.value else r.kind, plate := if plate.Some? then Tidy(plate.value) else r.plate)
  }

  /** An admin's fix of vehicle kind and plate: the kind not while online, the plate not another driver's. */
  function AdminEdit(w: World, d: Id, kind: Option<string>, plate: Option<string>): (World, Outcome) {
    if d !in w.rows then (w, NotFound)
    else if kind.Some? && kind.value != w.rows[d].kind && w.rows[d].isOnline then (w, Conflict)
    else if plate.Some? && exists o | o in w.rows :: o != d && w.rows[o].plate == Tidy(plate.value) then (w, Conflict)
    else (Invalidate(SetRow(w, d, Edited(w.rows[d], kind, plate)), d), Done)
  }

  /** Whether the plan allows it, and whether today's selfie is still to do, are answers from other services. */
  function GoOnline(env: Env, w: World, d: Id, now: int, planOk: bool, selfieDue: bool): (World, Outcome) {
    if d !in w.rows then (w, NotFound)
    else
      var r := w.rows[d];
      if r.status != APPROVED || r.blockedUntil > now || !planOk || (env.isDidit && !r.hasPhoto) then (w, Forbidden)
      else if selfieDue && !OnTrip(w, d) then (if r.isOnline then GoOffline(w, d) else w, Forbidden)
      else
        var w' := FreeIfStale(w, d);
        (w'.(dispatch := w'.dispatch + {d}, rows := w'.rows[d := r.(isOnline := true)], cache := w'.cache[d := Cached(true, r.kind, r.isBlocked)]), Done)
  }

  function TakeOffline(w: World, d: Id): (World, Outcome) {
    if d !in w.rows then (w, NotFound)
    else if !w.rows[d].isOnline then (w, Conflict)
    else (Changed(w, d, true), Done)
  }

  /** A pause for too many cancellations. */
  function Pause(w: World, d: Id, until: int): (World, Outcome) {
    if d !in w.rows then (w, NotFound)
    else (Invalidate(SetRow(w, d, w.rows[d].(blockedUntil := until, isOnline := false)).(dispatch := w.dispatch - {d}), d), Done)
  }

  /** The job of a pause that ended at `until`: a pause that was lifted, or is not the current one, is left alone. */
  function UnblockJob(w: World, d: Id, until: int, isLifted: bool): World {
    if isLifted || d !in w.rows || w.rows[d].blockedUntil != until then w
    else Invalidate(SetRow(w, d, w.rows[d].(blockedUntil := 0)), d)
  }

  /** An admin ends the current pause; whether there is one is in the driver's block history. */
  function Lift(w: World, d: Id, isPaused: bool): (World, Outcome) {
    if d !in w.rows || !isPaused then (w, Conflict) else (Invalidate(SetRow(w, d, w.rows[d].(blockedUntil := 0)), d), Done)
  }

  function Block(w: World, d: Id, isBlocked: bool): (World, Outcome) {
    if d !in w.rows then (w, NotFound)
    else (Invalidate(SetRow(w, d, w.rows[d].(isBlocked := isBlocked)), d), Done)
  }

  /** The state for the GPS path: the cached one, or the row's, which is then cached. */
  function Lookup(w: World, d: Id): (World, Option<Cached>) {
    if d in w.cache then (w, Some(w.cache[d]))
    else if d !in w.rows then (w, None)
    else
      var c := Cached(w.rows[d].isOnline, w.rows[d].kind, w.rows[d].isBlocked);
      (w.(cache := w.cache[d := c]), Some(c))
  }

  /** A GPS fix puts the driver in the index when their state says online and not blocked. */
  function GpsFix(w: World, d: Id): (World, Outcome) {
    var (w', c) := Lookup(w, d);
    if c.Some? && c.value.isOnline && !c.value.isBlocked then (w'.(dispatch := w'.dispatch + {d}), Done) else (w', Forbidden)
  }

  datatype Event =
    | DoRegister(d: Id, isAdmin: bool, kind: string, plate: string, identity: Identity)
    | DoUpload(d: Id, t: DocType)
    | DoReview(d: Id, t: DocType, verified: bool)
    | DoIdentity(d: Id, identity: Identity)
    | DoSetStatus(d: Id, status: DriverStatus)
    | DoApprove(ids: seq<Id>)
    | DoChangePlate(d: Id, plate: string)
    | DoGoOnline(d: Id, now: int, planOk: bool, selfieDue: bool)
    | DoGoOffline(d: Id)
    | DoTakeOffline(d: Id)
    | DoPause(d: Id, until: int)
    | DoUnblockJob(d: Id, until: int, at: int, isLifted: bool)
    | DoLift(d: Id, isPaused: bool)
    | DoBlock(d: Id, isBlocked: bool)
    | DoAdminEdit(d: Id, newKind: Option<string>, newPlate: Option<string>)
    | DoFix(d: Id)
    | CacheExpires(d: Id)
    | HeartbeatExpires(d: Id)
    | TripChanges(tripId: string, trip: Trip)
    | BusyChanges(busy: map<Id, string>)

  function Step(env: Env, w: World, e: Event): World {
    match e
    case DoRegister(d, isAdmin, kind, plate, identity) => Register(w, d, isAdmin, kind, plate, identity).0
    case DoUpload(d, t) => Upload(env, w, d, t).0
    case DoReview(d, t, verified) => Review(env, w, d, t, verified).0
    case DoIdentity(d, identity) => IdentityResult(env, w, d, identity).0
    case DoSetStatus(d, status) => SetStatus(w, d, status).0
    case DoApprove(ids) => ApproveAll(env, w, Unique(ids))
    case DoChangePlate(d, plate) => ChangePlate(w, d, plate).0
    case DoGoOnline(d, now, planOk, selfieDue) => GoOnline(env, w, d, now, planOk, selfieDue).0
    case DoGoOffline(d) => if d in w.rows then GoOffline(w, d) else w
    case DoTakeOffline(d) => TakeOffline(w, d).0
    case DoPause(d, until) => Pause(w, d, until).0
    case DoUnblockJob(d, until, _, isLifted) => UnblockJob(w, d, until, isLifted)
    case DoLift(d, isPaused) => Lift(w, d, isPaused).0
    case DoBlock(d, isBlocked) => Block(w, d, isBlocked).0
    case DoAdminEdit(d, newKind, newPlate) => AdminEdit(w, d, newKind, newPlate).0
    case DoFix(d) => GpsFix(w, d).0
    case CacheExpires(d) => Invalidate(w, d)
    case HeartbeatExpires(d) => w.(dispatch := w.dispatch - {d})
    case TripChanges(tripId, trip) => w.(trips := w.trips[tripId := trip])
    case BusyChanges(busy) => w.(busy := busy)
  }

  /** Settings may differ from step to step. */
  function Exec(w: World, es: seq<(Env, Event)>): World
    decreases |es|
  {
    if es == [] then w else Exec(Step(es[0].0, w, es[0].1), es[1..])
  }

  // ------------------------------------------------------------------------------------------------------- safety

  /** A step that leaves everyone but `d` alone is safe when it leaves `d` safe. */
  ghost predicate OnlyFor(w: World, w': World, d: Id) {
    forall x | x != d :: Of(w', x) == Of(w, x)
  }

  lemma OneDriverStep(w: World, w': World, d: Id)
    requires Safe(w) && OnlyFor(w, w', d) && ViewSafe(Of(w', d))
    ensures Safe(w')
  {
    forall x ensures ViewSafe(Of(w', x)) { if x != d { assert Of(w', x) == Of(w, x); } }
  }

  lemma RecomputeIsSafe(env: Env, w: World, d: Id)
    requires d in w.rows && ViewSafe(Of(w, d))
    ensures OnlyFor(w, Recompute(env, w, d, true), d) && ViewSafe(Of(Recompute(env, w, d, true), d))
  {
  }

  lemma NewPapersAreSafe(env: Env, w: World, d: Id, r: Row)
    requires Safe(w) && d in w.rows && r == w.rows[d].(docs := r.docs, identity := r.identity)
    ensures Safe(Recompute(env, SetRow(w, d, r), d, true))
  {
    assert ViewSafe(Of(w, d));
    RecomputeIsSafe(env, SetRow(w, d, r), d);
    OneDriverStep(w, Recompute(env, SetRow(w, d, r), d, true), d);
  }

  lemma ApproveOneIsSafe(env: Env, w: World, d: Id)
    requires Safe(w)
    ensures Safe(ApproveOne(env, w, d))
  {
    assert ViewSafe(Of(w, d));
    OneDriverStep(w, ApproveOne(env, w, d), d);
  }

  lemma {:induction false} ApproveAllIsSafe(env: Env, w: World, ids: seq<Id>)
    requires Safe(w)
    ensures Safe(ApproveAll(env, w, ids))
  {
    if ids != [] {
      ApproveAllIsSafe(env, w, ids[..|ids| - 1]);
      ApproveOneIsSafe(env, ApproveAll(env, w, ids[..|ids| - 1]), ids[|ids| - 1]);
    }
  }

  lemma PlateStepIsSafe(w: World, d: Id, plate: string)
    requires Safe(w)
    ensures Safe(ChangePlate(w, d, plate).0)
  {
    assert ViewSafe(Of(w, d));
    OneDriverStep(w, ChangePlate(w, d, plate).0, d);
  }

  lemma OnlineStepIsSafe(env: Env, w: World, d: Id, now: int, planOk: bool, selfieDue: bool)
    requires Safe(w)
    ensures Safe(GoOnline(env, w, d, now, planOk, selfieDue).0)
  {
    assert ViewSafe(Of(w, d));
    OneDriverStep(w, GoOnline(env, w, d, now, planOk, selfieDue).0, d);
  }

  lemma AdminStepIsSafe(env: Env, w: World, e: Event)
    requires Safe(w) && (e.DoSetStatus? || e.DoTakeOffline? || e.DoPause?)
    ensures Safe(Step(env, w, e))
  {
    assert ViewSafe(Of(w, e.d));
    OneDriverStep(w, Step(env, w, e), e.d);
  }

  lemma EditStepIsSafe(env: Env, w: World, e: Event)
    requires Safe(w) && (e.DoUnblockJob? || e.DoLift? || e.DoAdminEdit?)
    ensures Safe(Step(env, w, e))
  {
    assert ViewSafe(Of(w, e.d));
    OneDriverStep(w, Step(env, w, e), e.d);
  }

  lemma UserStepIsSafe(env: Env, w: World, e: Event)
    requires Safe(w) && (e.DoBlock? || e.DoRegister?)
    ensures Safe(Step(env, w, e))
  {
    assert ViewSafe(Of(w, e.d));
    OneDriverStep(w, Step(env, w, e), e.d);
  }

  lemma ExpiryIsSafe(env: Env, w: World, e: Event)
    requires Safe(w) && (e.CacheExpires? || e.HeartbeatExpires?)
    ensures Safe(Step(env, w, e))
  {
    assert ViewSafe(Of(w, e.d));
    OneDriverStep(w, Step(env, w, e), e.d);
  }

  lemma FixStepIsSafe(env: Env, w: World, e: Event)
    requires Safe(w) && (e.DoFix? || e.DoGoOffline?)
    ensures Safe(Step(env, w, e))
  {
    assert ViewSafe(Of(w, e.d));
    OneDriverStep(w, Step(env, w, e), e.d);
  }

  lemma StepIsSafe(env: Env, w: World, e: Event)
    requires Safe(w)
    ensures Safe(Step(env, w, e))
  {
    match e
    case DoUpload(d, t) =>
      if t in REQUIRED_DOCS && d in w.rows { NewPapersAreSafe(env, w, d, w.rows[d].(docs := w.rows[d].docs[t := UNDER_REVIEW])); }
    case DoReview(d, t, verified) =>
      if d in w.rows && t in w.rows[d].docs {
        NewPapersAreSafe(env, w, d, w.rows[d].(docs := w.rows[d].docs[t := if verified then VERIFIED else DOC_REJECTED]));
      }
    case DoIdentity(d, identity) =>
      if d in w.rows { NewPapersAreSafe(env, w, d, w.rows[d].(identity := identity)); }
    case DoApprove(ids) => ApproveAllIsSafe(env, w, Unique(ids));
    case DoChangePlate(d, plate) => PlateStepIsSafe(w, d, plate);
    case DoGoOnline(d, now, planOk, selfieDue) => OnlineStepIsSafe(env, w, d, now, planOk, selfieDue);
    case TripChanges(_, _) =>
      forall x ensures ViewSafe(Of(Step(env, w, e), x)) { assert Of(Step(env, w, e), x) == Of(w, x); }
    case BusyChanges(_) =>
      forall x ensures ViewSafe(Of(Step(env, w, e), x)) { assert Of(Step(env, w, e), x) == Of(w, x); }
    case DoUnblockJob(_, _, _, _) => EditStepIsSafe(env, w, e);
    case DoLift(_, _) => EditStepIsSafe(env, w, e);
    case DoAdminEdit(_, _, _) => EditStepIsSafe(env, w, e);
    case DoBlock(_, _) => UserStepIsSafe(env, w, e);
    case DoRegister(_, _, _, _, _) => UserStepIsSafe(env, w, e);
    case CacheExpires(_) => ExpiryIsSafe(env, w, e);
    case HeartbeatExpires(_) => ExpiryIsSafe(env, w, e);
    case _ =>
      if e.DoFix? || e.DoGoOffline? { FixStepIsSafe(env, w, e); } else { AdminStepIsSafe(env, w, e); }
  }

  /**
   * Whatever services are called in whatever order, a driver who is not approved is never online nor in dispatch,
   * and a cached state never disagrees with the row on being online, nor on a block while it says online.
   */
  lemma {:induction false} LifecycleIsSafe(w: World, es: seq<(Env, Event)>)
    requires Safe(w)
    ensures Safe(Exec(w, es))
    decreases |es|
  {
    if es != [] {
      StepIsSafe(es[0].0, w, es[0].1);
      LifecycleIsSafe(Step(es[0].0, w, es[0].1), es[1..]);
    }
  }

  /**
   * The status listener's failure is only logged: then the account stays safe exactly when the driver was not in
   * dispatch or keeps their status.
   */
  lemma FailedListenerIsSafeIff(env: Env, w: World, d: Id)
    requires Safe(w) && d in w.rows
    ensures Safe(Recompute(env, w, d, false)) <==> d !in w.dispatch || Next(env, w.rows[d]) == w.rows[d].status
  {
    NextStatusMeans(w.rows[d].status, w.rows[d].docs, w.rows[d].identity, env.isDidit, env.autoApprove);
    var w' := Recompute(env, w, d, false);
    assert ViewSafe(Of(w, d));
    if d !in w.dispatch || Next(env, w.rows[d]) == w.rows[d].status {
      OneDriverStep(w, w', d);
    } else {
      assert !ViewSafe(Of(w', d));
    }
  }

  /** An online driver whose RC was just rejected stays in dispatch when the listener fails. */
  lemma FailedListenerLeavesDispatch(env: Env, d: Id, identity: Identity)
    ensures var r := Row(APPROVED, true, "CAB", "TN1A1", map[VEHICLE_RC := DOC_REJECTED], identity, false, 0, true);
            var w := World(map[d := r], map[], {d}, map[], map[]);
            Safe(w) && d in Recompute(env, w, d, false).dispatch && !Safe(Recompute(env, w, d, false))
  {
    var r := Row(APPROVED, true, "CAB", "TN1A1", map[VEHICLE_RC := DOC_REJECTED], identity, false, 0, true);
    var w := World(map[d := r], map[], {d}, map[], map[]);
    forall x ensures ViewSafe(Of(w, x)) {}
    NextStatusMeans(r.status, r.docs, r.identity, env.isDidit, env.autoApprove);
    assert DocState(r.docs, VEHICLE_RC) == FAILED;
    FailedListenerIsSafeIff(env, w, d);
  }

  /** Once online, a busy flag names a trip of theirs that is under way. */
  lemma OnlineIsNotStuckBusy(env: Env, w: World, d: Id, now: int, planOk: bool, selfieDue: bool)
    requires GoOnline(env, w, d, now, planOk, selfieDue).1 == Done
    ensures var w' := GoOnline(env, w, d, now, planOk, selfieDue).0;
            && (d in w'.busy ==> w'.busy[d] in w'.trips && w'.trips[w'.busy[d]] == Trip(d, true))
            && d in w'.dispatch
  {
  }

  // ------------------------------------------------------------------------------------- the services, in place

  class DriverServices {
    var rows: map<Id, Row>
    var cache: map<Id, Cached>
    var dispatch: set<Id>
    var busy: map<Id, string>
    var trips: map<string, Trip>

    function State(): World
      reads this
    {
      World(rows, cache, dispatch, busy, trips)
    }

    constructor ()
      ensures State() == Empty && Safe(State())
    {
      rows, cache, dispatch, busy, trips := map[], map[], {}, map[], map[];
    }

    method TakeOfflineNow(d: Id)
      requires d in rows
      modifies this`rows, this`cache, this`dispatch
      ensures State() == GoOffline(old(State()), d)
    {
      rows := rows[d := rows[d].(isOnline := false)];
      cache := cache[d := Cached(false, rows[d].kind, false)];
      dispatch := dispatch - {d};
    }

    method StatusChanged(d: Id, offline: bool)
      requires d in rows
      modifies this`rows, this`cache, this`dispatch
      ensures State() == Changed(old(State()), d, offline)
    {
      if offline || rows[d].status != APPROVED {
        TakeOfflineNow(d);
        // The cached state says "not blocked": the flag is read again on the next fix.
        cache := cache - {d};
      }
    }

    method RecomputeStatus(env: Env, d: Id, listenerOk: bool) returns (next: DriverStatus)
      requires d in rows
      modifies this`rows, this`cache, this`dispatch
      ensures State() == Recompute(env, old(State()), d, listenerOk)
      ensures next == Next(env, old(rows)[d])
    {
      var r := rows[d];
      next := NextDriverStatus(r.status, r.docs, r.identity, env.isDidit, env.autoApprove);
      if next == r.status { return; }
      rows := rows[d := r.(status := next, isOnline := if next == APPROVED then r.isOnline else false)];
      cache := cache - {d};
      if listenerOk { StatusChanged(d, false); }
    }

    method ReviewDocument(env: Env, d: Id, t: DocType, verified: bool) returns (o: Outcome)
      modifies this`rows, this`cache, this`dispatch
      ensures (State(), o) == Review(env, old(State()), d, t, verified)
      ensures old(Safe(State())) ==> Safe(State())
    {
      ghost var w := State();
      if Safe(w) { StepIsSafe(env, w, DoReview(d, t, verified)); }
      if d !in rows || t !in rows[d].docs { return NotFound; }
      if rows[d].docs[t] == NOT_UPLOADED { return BadRequest; }
      rows := rows[d := rows[d].(docs := rows[d].docs[t := if verified then VERIFIED else DOC_REJECTED])];
      var _ := RecomputeStatus(env, d, true);
      return Done;
    }

    method SetDriverStatus(d: Id, status: DriverStatus) returns (o: Outcome)
      modifies this`rows, this`cache, this`dispatch
      ensures (State(), o) == SetStatus(old(State()), d, status)
      ensures old(Safe(State())) ==> Safe(State())
    {
      ghost var w := State();
      if Safe(w) { StepIsSafe(Env(false, false), w, DoSetStatus(d, status)); }
      if d !in rows { return NotFound; }
      rows := rows[d := rows[d].(status := status, isOnline := if status == APPROVED then rows[d].isOnline else false)];
      cache := cache - {d};
      StatusChanged(d, false);
      return Done;
    }

    method ApproveIfReady(env: Env, d: Id) returns (ok: bool)
      modifies this`rows, this`cache, this`dispatch
      ensures ok == Ready(env, old(State()), d)
      ensures State() == ApproveOne(env, old(State()), d)
    {
      ok := d in rows && rows[d].status == PENDING && ApprovalChecklist(rows[d].docs, rows[d].identity, env.isDidit).isReady;
      if ok {
        rows := rows[d := rows[d].(status := APPROVED)];
        cache := cache - {d};
        StatusChanged(d, false);
      }
    }

    /** Approves the pending drivers whose every check is done, each once, and skips the rest. */
    method ApproveMany(env: Env, ids: seq<Id>) returns (approved: seq<Id>, skipped: set<Id>)
      modifies this`rows, this`cache, this`dispatch
      ensures State() == ApproveAll(env, old(State()), Unique(ids))
      ensures old(Safe(State())) ==> Safe(State())
      ensures Distinct(approved) && Elems(approved) == set d | d in ids && Ready(env, old(State()), d)
      ensures skipped == Elems(ids) - Elems(approved)
    {
      ghost var w := State();
      var unique := Unique(ids);
      if Safe(w) { ApproveAllIsSafe(env, w, unique); }
      approved, skipped := ApproveEach(env, unique);
      assert forall d :: d in unique <==> d in Elems(unique);
      assert forall d :: d in ids <==> d in Elems(ids);
    }

    /** The loop over the distinct drivers: approving one leaves the others as ready as they were. */
    method ApproveEach(env: Env, unique: seq<Id>) returns (approved: seq<Id>, skipped: set<Id>)
      requires Distinct(unique)
      modifies this`rows, this`cache, this`dispatch
      ensures State() == ApproveAll(env, old(State()), unique)
      ensures Distinct(approved)
      ensures forall d :: d in approved <==> d in unique && Ready(env, old(State()), d)
      ensures forall d :: d in skipped <==> d in unique && !Ready(env, old(State()), d)
    {
      ghost var w := State();
      approved, skipped := [], {};
      for i := 0 to |unique|
        invariant State() == ApproveAll(env, w, unique[..i])
        invariant Distinct(approved)
        invariant forall d :: d in approved <==> d in unique[..i] && Ready(env, w, d)
        invariant forall d :: d in skipped <==> d in unique[..i] && !Ready(env, w, d)
      {
        var d := unique[i];
        assert unique[..i + 1][..i] == unique[..i] && unique[..i + 1] == unique[..i] + [d];
        ApproveLeavesOthers(env, w, unique[..i], d);
        var ok := ApproveIfReady(env, d);
        if ok { approved := approved + [d]; } else { skipped := skipped + {d}; }
      }
      assert unique[..|unique|] == unique;
    }

    method UpdatePlate(d: Id, plate: string) returns (o: Outcome)
      modifies this`rows, this`cache, this`dispatch
      ensures (State(), o) == ChangePlate(old(State()), d, plate)
      ensures old(Safe(State())) ==> Safe(State())
    {
      ghost var w := State();
      if Safe(w) { PlateStepIsSafe(w, d, plate); }
      if d !in rows { return NotFound; }
      var r := rows[d];
      var leaves := IsNewPlate(r, plate) && (r.status == APPROVED || r.status == ON_HOLD);
      if leaves && OnTrip(State(), d) { return Conflict; }
      if IsNewPlate(r, plate) && exists o | o in rows :: o != d && rows[o].plate == Upper(plate) { return Conflict; }
      r := Revise(r, plate);
      rows := rows[d := r];
      if leaves { TakeOfflineNow(d); }
      cache := cache - {d};
      return Done;
    }

    /** The transaction on the row: plate, status and RC. */
    method Revise(r0: Row, plate: string) returns (r: Row)
      ensures r == NewVehicle(r0, plate)
    {
      r := r0;
      if SamePlate(plate, r.plate) { return; }
      var isRcUploaded := VEHICLE_RC in r.docs && r.docs[VEHICLE_RC] != NOT_UPLOADED;
      var leaves := r.status == APPROVED || r.status == ON_HOLD;
      r := r.(plate := Upper(plate));
      if leaves { r := r.(status := PENDING, isOnline := false); }
      if leaves || isRcUploaded { r := r.(docs := r.docs[VEHICLE_RC := NOT_UPLOADED]); }
    }

    method BringOnline(env: Env, d: Id, now: int, planOk: bool, selfieDue: bool) returns (o: Outcome)
      modifies this
      ensures (State(), o) == GoOnline(env, old(State()), d, now, planOk, selfieDue)
      ensures old(Safe(State())) ==> Safe(State())
    {
      ghost var w := State();
      if Safe(w) { OnlineStepIsSafe(env, w, d, now, planOk, selfieDue); }
      if d !in rows { return NotFound; }
      var r := rows[d];
      if r.status != APPROVED || r.blockedUntil > now || !planOk || (env.isDidit && !r.hasPhoto) { return Forbidden; }
      if selfieDue && !OnTrip(State(), d) {
        if r.isOnline { TakeOfflineNow(d); }
        return Forbidden;
      }
      if d in busy {
        var stale := !(busy[d] in trips && trips[busy[d]] == Trip(d, true));
        if stale { busy := busy - {d}; }
      }
      dispatch := dispatch + {d};
      rows := rows[d := r.(isOnline := true)];
      cache := cache[d := Cached(true, r.kind, r.isBlocked)];
      return Done;
    }

    method CachedState(d: Id) returns (c: Option<Cached>)
      modifies this`cache
      ensures (State(), c) == Lookup(old(State()), d)
    {
      if d in cache { return Some(cache[d]); }
      if d !in rows { return None; }
      c := Some(Cached(rows[d].isOnline, rows[d].kind, rows[d].isBlocked));
      cache := cache[d := c.value];
    }
  }

  /** Approving some drivers changes nothing for another. */
  lemma {:induction false} ApproveLeavesOthers(env: Env, w: World, ids: seq<Id>, d: Id)
    requires d !in ids
    ensures var w' := ApproveAll(env, w, ids);
            && (d in w'.rows <==> d in w.rows) && (d in w.rows ==> w'.rows[d] == w.rows[d])
  {
    if ids != [] { ApproveLeavesOthers(env, w, ids[..|ids| - 1], d); }
  }

  // --------------------------------------------------------------------------------------------- the cached text

  function Flag(b: bool): (s: string)
    ensures '|' !in s && (s == "1" <==> b) && (s == "0" <==> !b)
  {
    if b then "1" else "0"
  }

  /** `1|BIKE|0` */
  function Encode(c: Cached): string {
    Flag(c.isOnline) + "|" + c.kind + "|" + Flag(c.isBlocked)
  }

  function Split(s: string): (parts: seq<string>)
    ensures parts != []
  {
    if s == "" then [""]
    else if s[0] == '|' then [""] + Split(s[1..])
    else var r := Split(s[1..]); [[s[0]] + r[0]] + r[1..]
  }

  function Decode(raw: string): Option<Cached> {
    var parts := Split(raw);
    if |parts| < 2 || parts[1] == "" || (parts[0] != "0" && parts[0] != "1") then None
    else Some(Cached(parts[0] == "1", parts[1], |parts| > 2 && parts[2] == "1"))
  }

  lemma {:induction false} SplitFirst(a: string, rest: string)
    requires '|' !in a
    ensures Split(a + "|" + rest) == [a] + Split(rest)
    ensures Split(a) == [a]
  {
    if a != "" {
      SplitFirst(a[1..], rest);
      assert (a + "|" + rest)[1..] == a[1..] + "|" + rest;
      assert [a[0]] + a[1..] == a;
    } else {
      assert (a + "|" + rest)[1..] == rest;
    }
  }

  lemma SplitThree(a: string, b: string, c: string)
    requires '|' !in a && '|' !in b && '|' !in c
    ensures Split(a + "|" + b + "|" + c) == [a, b, c]
  {
    assert a + "|" + b + "|" + c == a + "|" + (b + "|" + c);
    SplitFirst(a, b + "|" + c);
    SplitFirst(b, c);
    SplitFirst(c, "");
  }

  /** The cache text gives the state back, for every vehicle kind that is not empty and holds no bar. */
  lemma CacheTextRoundTrip(c: Cached)
    requires '|' !in c.kind && c.kind != ""
    ensures Decode(Encode(c)) == Some(c)
  {
    SplitThree(Flag(c.isOnline), c.kind, Flag(c.isBlocked));
  }
}
