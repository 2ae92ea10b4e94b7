/** What each call on a driver's account decides, in terms of the account before it; everyone else is as before. */
module DriverDecisions {
  import opened JsMath
  import opened DriverApproval
  import opened DriverLifecycle
  import Collections

  // ---------------------------------------------------------------------------------------- papers and the status

  /** The status that papers give: a held driver stays held; a failed check rejects; all passed approves, if automatic. */
  ghost predicate PapersDecide(env: Env, r: Row, status: DriverStatus) {
    var rc, insurance := DocOf(r, VEHICLE_RC), DocOf(r, INSURANCE);
    var failed := rc == DOC_REJECTED || insurance == DOC_REJECTED || (env.isDidit && r.identity == DECLINED);
    var passed := rc == VERIFIED && insurance == VERIFIED && (env.isDidit ==> r.identity == ID_APPROVED);
    status ==
      if r.status == ON_HOLD then ON_HOLD
      else if failed then REJECTED
      else if r.status == APPROVED || (passed && env.autoApprove) then APPROVED
      else PENDING
  }

  function DocOf(r: Row, t: DocType): DocStatus { if t in r.docs then r.docs[t] else NOT_UPLOADED }

  /** `r` is the row with its new papers, `r'` the row stored: only status and online may differ, as the papers decide. */
  ghost predicate StoredAs(env: Env, r: Row, r': Row) {
    PapersDecide(env, r, r'.status) && r' == r.(status := r'.status, isOnline := r.isOnline && r'.status == APPROVED)
  }

  /** The call stored `r` with the status its papers give, kept dispatch in line, and left everyone else alone. */
  ghost predicate Decided(env: Env, w: World, w': World, d: Id, r: Row) {
    && d in w'.rows && StoredAs(env, r, w'.rows[d]) && (d in w'.dispatch <==> d in w.dispatch && w'.rows[d].status == APPROVED)
    && OnlyFor(w, w', d) && w'.busy == w.busy && w'.trips == w.trips
  }

  lemma NextDecides(env: Env, r: Row)
    ensures PapersDecide(env, r, Next(env, r))
  {
    NextStatusMeans(r.status, r.docs, r.identity, env.isDidit, env.autoApprove);
  }

  /** Going offline: in the row, the cache and dispatch, and nothing else. */
  lemma GoOfflineMeans(w: World, d: Id)
    requires d in w.rows
    ensures var w' := GoOffline(w, d);
            && d in w'.rows && w'.rows[d] == w.rows[d].(isOnline := false) && d !in w'.dispatch && OnlyFor(w, w', d)
            && d in w'.cache && !w'.cache[d].isOnline && w'.cache[d].kind == w.rows[d].kind && w'.busy == w.busy
  {
  }

  lemma WriteMeans(w: World, d: Id, r: Row)
    ensures var w' := Invalidate(SetRow(w, d, r), d);
            d in w'.rows && w'.rows[d] == r && w'.dispatch == w.dispatch && d !in w'.cache && w'.busy == w.busy && w'.trips == w.trips && OnlyFor(w, w', d)
  {
  }

  lemma ChangedMeans(w: World, d: Id)
    requires d in w.rows
    ensures var w', stays := Changed(w, d, false), w.rows[d].status == APPROVED;
            && d in w'.rows && w'.rows[d] == w.rows[d].(isOnline := w.rows[d].isOnline && stays)
            && (d in w'.dispatch <==> d in w.dispatch && stays) && OnlyFor(w, w', d) && w'.busy == w.busy && w'.trips == w.trips
  {
    GoOfflineMeans(w, d);
  }

  lemma ApplyStores(w: World, d: Id, r: Row, next: DriverStatus)
    requires ViewSafe(Of(w, d)) && d in w.rows && r == w.rows[d].(docs := r.docs, identity := r.identity)
    ensures var w' := Apply(SetRow(w, d, r), d, next, true);
            && d in w'.rows && w'.rows[d] == r.(status := next, isOnline := r.isOnline && next == APPROVED)
            && (d in w'.dispatch <==> d in w.dispatch && next == APPROVED)
            && OnlyFor(w, w', d) && w'.busy == w.busy && w'.trips == w.trips
  {
    if next != r.status {
      var w1 := Invalidate(SetRow(SetRow(w, d, r), d, WithStatus(r, next)), d);
      assert w1 == Invalidate(SetRow(w, d, WithStatus(r, next)), d) by { assert w.rows[d := r][d := WithStatus(r, next)] == w.rows[d := WithStatus(r, next)]; }
      WriteMeans(w, d, WithStatus(r, next));
      ChangedMeans(w1, d);
    }
  }

  lemma RecomputeDecides(env: Env, w: World, d: Id, r: Row)
    requires ViewSafe(Of(w, d)) && d in w.rows && r == w.rows[d].(docs := r.docs, identity := r.identity)
    ensures Decided(env, w, Recompute(env, SetRow(w, d, r), d, true), d, r)
  {
    NextDecides(env, r);
    ApplyStores(w, d, r, Next(env, r));
  }

  /** An upload puts that one paper under review. */
  lemma UploadMeans(env: Env, w: World, d: Id, t: DocType)
    requires Safe(w)
    ensures var (w', o) := Upload(env, w, d, t);
            && (o == Done <==> (t == VEHICLE_RC || t == INSURANCE) && d in w.rows) && (o != Done ==> w' == w)
            && (o == Done ==> Decided(env, w, w', d, w.rows[d].(docs := w.rows[d].docs[t := UNDER_REVIEW])))
  {
    assert ViewSafe(Of(w, d));
    if (t == VEHICLE_RC || t == INSURANCE) && d in w.rows { RecomputeDecides(env, w, d, w.rows[d].(docs := w.rows[d].docs[t := UNDER_REVIEW])); }
  }

  /** A review stores its own decision on that one paper, which must have been uploaded. */
  lemma ReviewMeans(env: Env, w: World, d: Id, t: DocType, verified: bool)
    requires Safe(w)
    ensures var (w', o) := Review(env, w, d, t, verified);
            && (o == Done <==> d in w.rows && DocOf(w.rows[d], t) != NOT_UPLOADED) && (o != Done ==> w' == w)
            && (o == Done && verified ==> Decided(env, w, w', d, w.rows[d].(docs := w.rows[d].docs[t := VERIFIED])))
            && (o == Done && !verified ==> Decided(env, w, w', d, w.rows[d].(docs := w.rows[d].docs[t := DOC_REJECTED])))
  {
    assert ViewSafe(Of(w, d));
    if d in w.rows && DocOf(w.rows[d], t) != NOT_UPLOADED {
      RecomputeDecides(env, w, d, w.rows[d].(docs := w.rows[d].docs[t := if verified then VERIFIED else DOC_REJECTED]));
    }
  }

  lemma IdentityMeans(env: Env, w: World, d: Id, identity: Identity)
    requires Safe(w)
    ensures var (w', o) := IdentityResult(env, w, d, identity);
            && (o == Done <==> d in w.rows) && (o != Done ==> w' == w)
            && (o == Done ==> Decided(env, w, w', d, w.rows[d].(identity := identity)))
  {
    assert ViewSafe(Of(w, d));
    if d in w.rows { RecomputeDecides(env, w, d, w.rows[d].(identity := identity)); }
  }

  /** Rejecting a required paper rejects a driver who is not held: offline and out of dispatch at once. */
  lemma RejectingRejects(env: Env, w: World, d: Id, t: DocType)
    requires Safe(w) && (t == VEHICLE_RC || t == INSURANCE) && Review(env, w, d, t, false).1 == Done && w.rows[d].status != ON_HOLD
    ensures var w' := Review(env, w, d, t, false).0;
            d in w'.rows && w'.rows[d].status == REJECTED && !w'.rows[d].isOnline && d !in w'.dispatch && w'.rows[d].docs[t] == DOC_REJECTED
  {
    ReviewMeans(env, w, d, t, false);
  }

  /** Verifying the last missing paper approves a pending driver exactly when approval is automatic. */
  lemma LastPaperApproves(env: Env, w: World, d: Id, t: DocType, other: DocType)
    requires Safe(w) && {t, other} == {VEHICLE_RC, INSURANCE} && Review(env, w, d, t, true).1 == Done
    requires w.rows[d].status == PENDING && DocOf(w.rows[d], other) == VERIFIED && (env.isDidit ==> w.rows[d].identity == ID_APPROVED)
    ensures var w' := Review(env, w, d, t, true).0;
            d in w'.rows && w'.rows[d].status == (if env.autoApprove then APPROVED else PENDING) && w'.rows[d].docs[t] == VERIFIED
  {
    ReviewMeans(env, w, d, t, true);
    assert t != other by { assert VEHICLE_RC in {t, other} && INSURANCE in {t, other}; }
    assert t in {VEHICLE_RC, INSURANCE} && other in {VEHICLE_RC, INSURANCE};
  }

  // -------------------------------------------------------------------------------------------- admin decisions

  /** The status asked for is the one stored; anything but APPROVED takes the driver offline and out of dispatch. */
  lemma SetStatusMeans(w: World, d: Id, status: DriverStatus)
    requires Safe(w)
    ensures var (w', o) := SetStatus(w, d, status);
            && (o == Done <==> d in w.rows) && (o != Done ==> w' == w)
            && (o == Done ==>
                 && d in w'.rows && w'.rows[d] == w.rows[d].(status := status, isOnline := w.rows[d].isOnline && status == APPROVED)
                 && (d in w'.dispatch <==> d in w.dispatch && status == APPROVED)
                 && OnlyFor(w, w', d) && w'.busy == w.busy && w'.trips == w.trips)
  {
    assert ViewSafe(Of(w, d));
  }

  /** Who can be approved: pending, both papers verified and, with the identity provider, identity approved. */
  lemma ReadyMeans(env: Env, w: World, d: Id)
    ensures Ready(env, w, d) <==>
            && d in w.rows && w.rows[d].status == PENDING && DocOf(w.rows[d], VEHICLE_RC) == VERIFIED && DocOf(w.rows[d], INSURANCE) == VERIFIED
            && (env.isDidit ==> w.rows[d].identity == ID_APPROVED)
  {
    if d in w.rows { ChecklistMeans(w.rows[d].docs, w.rows[d].identity, env.isDidit); }
  }

  lemma ApproveOneMeans(env: Env, w: World, d: Id)
    ensures var w' := ApproveOne(env, w, d);
            && w'.rows == (if Ready(env, w, d) then w.rows[d := w.rows[d].(status := APPROVED)] else w.rows)
            && w'.dispatch == w.dispatch && w'.busy == w.busy
  {
  }

  /** Bulk approval changes the status of those who were ready, and nothing else of anyone. */
  lemma {:induction false} ApproveAllMeans(env: Env, w: World, ids: seq<Id>)
    requires Collections.Distinct(ids)
    ensures var w' := ApproveAll(env, w, ids);
            && w'.rows.Keys == w.rows.Keys && w'.dispatch == w.dispatch && w'.busy == w.busy
            && forall d | d in w.rows :: w'.rows[d] == if d in ids && Ready(env, w, d) then w.rows[d].(status := APPROVED) else w.rows[d]
  {
    if ids != [] {
      var init, last := ids[..|ids| - 1], ids[|ids| - 1];
      ApproveAllMeans(env, w, init);
      assert last !in init;
      ApproveOneMeans(env, ApproveAll(env, w, init), last);
      assert Ready(env, ApproveAll(env, w, init), last) <==> Ready(env, w, last);
      assert forall d :: d in ids <==> d in init || d == last;
    }
  }

  /** A block is stored as asked, and the next fix reads it from the row. */
  lemma BlockMeans(w: World, d: Id, isBlocked: bool)
    requires Safe(w)
    ensures var (w', o) := Block(w, d, isBlocked);
            && (o == Done <==> d in w.rows) && (o != Done ==> w' == w)
            && (o == Done ==>
                 && d in w'.rows && w'.rows[d] == w.rows[d].(isBlocked := isBlocked) && d !in w'.cache
                 && OnlyFor(w, w', d) && w'.dispatch == w.dispatch
                 && (GpsFix(w', d).1 == Done <==> w.rows[d].isOnline && !isBlocked))
  {
  }

  /** A pause: stored with its end, offline and out of dispatch at once. */
  lemma PauseMeans(w: World, d: Id, until: int)
    ensures var (w', o) := Pause(w, d, until);
            && (o == Done <==> d in w.rows) && (o != Done ==> w' == w)
            && (o == Done ==>
                 && d in w'.rows && w'.rows[d] == w.rows[d].(blockedUntil := until, isOnline := false)
                 && d !in w'.dispatch && d !in w'.cache && OnlyFor(w, w', d) && w'.busy == w.busy)
  {
  }

  /** What ending a pause stores; from then on it refuses the driver nothing, at any time. */
  ghost predicate PauseEnded(w: World, w': World, d: Id) {
    && d in w.rows && d in w'.rows && w'.rows[d] == w.rows[d].(blockedUntil := 0) && d !in w'.cache && w'.dispatch == w.dispatch && OnlyFor(w, w', d)
    && (forall env, now: nat :: w.rows[d].status == APPROVED && w.rows[d].hasPhoto ==> GoOnline(env, w', d, now, true, false).1 == Done)
  }

  /** An admin lifts a pause exactly when there is one, and that ends it. */
  lemma LiftMeans(w: World, d: Id, isPaused: bool)
    ensures var (w', o) := Lift(w, d, isPaused);
            && (o == Done <==> d in w.rows && isPaused) && (o != Done ==> w' == w && o == Conflict)
            && (o == Done ==> PauseEnded(w, w', d))
  {
  }

  /** The job at a pause's end ends it exactly when it was not lifted and is still the current one. */
  lemma UnblockJobMeans(w: World, d: Id, until: int, isLifted: bool)
    ensures var w' := UnblockJob(w, d, until, isLifted);
            if d in w.rows && w.rows[d].blockedUntil == until && !isLifted then PauseEnded(w, w', d) else w' == w
  {
  }

  lemma AdminEditMeans(w: World, d: Id, kind: Option<string>, plate: Option<string>)
    ensures var (w', o) := AdminEdit(w, d, kind, plate);
            && (o == NotFound <==> d !in w.rows) && (o != Done ==> w' == w)
            && (o == Done <==>
                 && d in w.rows && !(kind.Some? && kind.value != w.rows[d].kind && w.rows[d].isOnline)
                 && !(plate.Some? && exists x | x in w.rows :: x != d && w.rows[x].plate == Tidy(plate.value)))
            && (o == Done ==>
                 && d in w'.rows && (match kind case Some(k) => w'.rows[d].kind == k case None => w'.rows[d].kind == w.rows[d].kind)
                 && (match plate case Some(p) => w'.rows[d].plate == Tidy(p) case None => w'.rows[d].plate == w.rows[d].plate)
                 && w'.rows[d] == w.rows[d].(kind := w'.rows[d].kind, plate := w'.rows[d].plate) && OnlyFor(w, w', d) && w'.dispatch == w.dispatch)
  {
  }

  // ------------------------------------------------------------------------------------------- the driver's own calls

  /** A new driver starts pending, offline, with the vehicle given and both papers to upload. */
  lemma RegisterMeans(w: World, d: Id, isAdmin: bool, kind: string, plate: string, identity: Identity)
    ensures var (w', o) := Register(w, d, isAdmin, kind, plate, identity);
            && (o == Forbidden <==> isAdmin) && (o == Conflict <==> !isAdmin && d !in w.rows && exists x | x in w.rows :: w.rows[x].plate == Upper(plate))
            && (o == Done || o == Forbidden || o == Conflict) && (o != Done || d in w.rows ==> w' == w)
            && (o == Done && d !in w.rows ==>
                 && d in w'.rows && OnlyFor(w, w', d)
                 && var r := w'.rows[d];
                    && r.status == PENDING && !r.isOnline && r.kind == kind && r.plate == Upper(plate) && r.identity == identity
                    && !r.isBlocked && r.blockedUntil == 0 && !r.hasPhoto && r.docs.Keys == {VEHICLE_RC, INSURANCE}
                    && r.docs[VEHICLE_RC] == NOT_UPLOADED && r.docs[INSURANCE] == NOT_UPLOADED)
  {
  }

  predicate HasTrip(w: World, d: Id) { exists t | t in w.trips :: w.trips[t].driver == d && w.trips[t].isOn }

  /** Who goes online, and what that stores; a selfie that is due takes a driver still online offline instead. */
  lemma GoOnlineMeans(env: Env, w: World, d: Id, now: int, planOk: bool, selfieDue: bool)
    requires Safe(w)
    ensures var (w', o) := GoOnline(env, w, d, now, planOk, selfieDue);
            && (o == NotFound <==> d !in w.rows) && (o == Done || o == Forbidden || o == NotFound)
            && (o == Done <==>
                 && d in w.rows && w.rows[d].status == APPROVED && w.rows[d].blockedUntil <= now && planOk
                 && (env.isDidit ==> w.rows[d].hasPhoto) && (selfieDue ==> HasTrip(w, d)))
            && (d in w.rows ==> d in w'.rows && w'.rows[d] == w.rows[d].(isOnline := w'.rows[d].isOnline) && OnlyFor(w, w', d))
            && (o == Done ==> w'.rows[d].isOnline && d in w'.dispatch && d in w'.cache && w'.cache[d] == Cached(true, w.rows[d].kind, w.rows[d].isBlocked))
            && (o == Forbidden ==>
                 (w'.rows[d].isOnline <==> w.rows[d].isOnline && (w.rows[d].blockedUntil > now || !planOk || (env.isDidit && !w.rows[d].hasPhoto))))
            && w'.trips == w.trips && (forall x | x != d :: (x in w'.busy <==> x in w.busy) && (x in w.busy ==> w'.busy[x] == w.busy[x]))
            && (d in w.busy && w.busy[d] in w.trips && w.trips[w.busy[d]] == Trip(d, true) ==> d in w'.busy && w'.busy[d] == w.busy[d])
  {
    assert ViewSafe(Of(w, d));
    assert OnTrip(w, d) <==> HasTrip(w, d);
  }

  lemma TakeOfflineMeans(w: World, d: Id)
    ensures var (w', o) := TakeOffline(w, d);
            && (o == Done <==> d in w.rows && w.rows[d].isOnline) && (o == NotFound <==> d !in w.rows) && (o != Done ==> w' == w)
            && (o == Done ==> d in w'.rows && w'.rows[d] == w.rows[d].(isOnline := false) && d !in w'.dispatch && d !in w'.cache && OnlyFor(w, w', d))
  {
  }

  lemma NewVehicleMeans(r: Row, plate: string)
    requires !SamePlate(plate, r.plate) && (r.isOnline ==> r.status == APPROVED)
    ensures var r' := NewVehicle(r, plate);
            && r'.plate == Upper(plate) && r'.status == (if r.status == REJECTED then REJECTED else PENDING) && !r'.isOnline
            && DocOf(r', VEHICLE_RC) == NOT_UPLOADED && DocOf(r', INSURANCE) == DocOf(r, INSURANCE)
            && r' == r.(plate := r'.plate, status := r'.status, isOnline := false, docs := r'.docs)
  {
  }

  lemma ChangeStores(w: World, d: Id, plate: string)
    requires d in w.rows && ChangePlate(w, d, plate).1 == Done
    ensures var w', r := ChangePlate(w, d, plate).0, NewVehicle(w.rows[d], plate);
            && d in w'.rows && w'.rows[d] == r.(isOnline := r.isOnline && !LeavesApproval(w.rows[d], plate))
            && (d in w'.dispatch <==> d in w.dispatch && !LeavesApproval(w.rows[d], plate)) && OnlyFor(w, w', d)
  {
    var w1 := SetRow(w, d, NewVehicle(w.rows[d], plate));
    WriteMeans(w, d, NewVehicle(w.rows[d], plate));
    GoOfflineMeans(w1, d);
  }

  /** A new plate: refused on a trip or when another driver's; else a new vehicle that waits for its RC, offline. */
  lemma ChangePlateMeans(w: World, d: Id, plate: string)
    requires Safe(w) && d in w.rows && ChangePlate(w, d, plate).1 == Done
    ensures var w' := ChangePlate(w, d, plate).0;
            && d in w'.rows && OnlyFor(w, w', d)
            && (SamePlate(plate, w.rows[d].plate) ==> w'.rows[d] == w.rows[d] && (d in w'.dispatch <==> d in w.dispatch))
            && (!SamePlate(plate, w.rows[d].plate) ==>
                 && w'.rows[d].plate == Upper(plate) && w'.rows[d].status == (if w.rows[d].status == REJECTED then REJECTED else PENDING)
                 && !w'.rows[d].isOnline && d !in w'.dispatch && DocOf(w'.rows[d], VEHICLE_RC) == NOT_UPLOADED
                 && DocOf(w'.rows[d], INSURANCE) == DocOf(w.rows[d], INSURANCE))
  {
    assert ViewSafe(Of(w, d));
    ChangeStores(w, d, plate);
    if !SamePlate(plate, w.rows[d].plate) { NewVehicleMeans(w.rows[d], plate); }
  }

  lemma ChangePlateRefused(w: World, d: Id, plate: string)
    ensures var (w', o) := ChangePlate(w, d, plate);
            && (o == NotFound <==> d !in w.rows) && (o != Done ==> w' == w)
            && (o == Conflict <==>
                 && d in w.rows && !SamePlate(plate, w.rows[d].plate)
                 && (((w.rows[d].status == APPROVED || w.rows[d].status == ON_HOLD) && HasTrip(w, d))
                     || exists x | x in w.rows :: x != d && w.rows[x].plate == Upper(plate)))
  {
    assert OnTrip(w, d) <==> HasTrip(w, d);
  }

  /** What the GPS path is told of a driver is what their row says: online, kind and, when online, the block. */
  lemma LookupMeans(w: World, d: Id)
    requires Safe(w)
    ensures var (w', c) := Lookup(w, d);
            && (c.None? <==> d !in w.rows)
            && (c.Some? ==> c.value.isOnline == w.rows[d].isOnline && c.value.kind == w.rows[d].kind && (c.value.isOnline ==> c.value.isBlocked == w.rows[d].isBlocked))
            && (c.Some? ==> d in w'.cache && w'.cache[d] == c.value) && w'.rows == w.rows && w'.dispatch == w.dispatch
  {
    assert ViewSafe(Of(w, d));
  }

  /** A fix puts a driver in dispatch exactly when their row says online and not blocked. */
  lemma GpsFixMeans(w: World, d: Id)
    requires Safe(w)
    ensures var (w', o) := GpsFix(w, d);
            && (o == Done <==> d in w.rows && w.rows[d].isOnline && !w.rows[d].isBlocked)
            && w'.dispatch == (if o == Done then w.dispatch + {d} else w.dispatch) && w'.rows == w.rows
  {
    LookupMeans(w, d);
  }
}
