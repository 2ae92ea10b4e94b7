/** A pause for too many cancellations, over the driver's lifecycle: nothing brings the driver online before it ends. */
module DriverPause {
  import opened JsMath
  import opened DriverApproval
  import opened DriverLifecycle
  import Collections

  /** The driver's row exists still, with the same pause, and is online only if it was. */
  ghost predicate Quiet(w: World, w': World, d: Id) {
    d in w.rows ==> d in w'.rows && w'.rows[d].blockedUntil == w.rows[d].blockedUntil && (w'.rows[d].isOnline ==> w.rows[d].isOnline)
  }

  lemma SetRowIsQuiet(w: World, x: Id, r: Row, d: Id)
    requires x in w.rows && r.blockedUntil == w.rows[x].blockedUntil && (r.isOnline ==> w.rows[x].isOnline)
    ensures Quiet(w, SetRow(w, x, r), d)
  {
  }

  lemma OfflineIsQuiet(w: World, x: Id, d: Id)
    requires x in w.rows
    ensures Quiet(w, GoOffline(w, x), d) && Quiet(w, Changed(w, x, true), d) && Quiet(w, Changed(w, x, false), d)
  {
  }

  lemma ApplyIsQuiet(w: World, x: Id, r: Row, next: DriverStatus, d: Id)
    requires x in w.rows && r.blockedUntil == w.rows[x].blockedUntil && r.isOnline == w.rows[x].isOnline
    ensures Quiet(w, Apply(SetRow(w, x, r), x, next, true), d)
  {
    SetRowIsQuiet(w, x, WithStatus(r, next), d);
    OfflineIsQuiet(Invalidate(SetRow(SetRow(w, x, r), x, WithStatus(r, next)), x), x, d);
  }

  lemma RecomputeIsQuiet(env: Env, w: World, x: Id, r: Row, d: Id)
    requires x in w.rows && r.blockedUntil == w.rows[x].blockedUntil && r.isOnline == w.rows[x].isOnline
    ensures Quiet(w, Recompute(env, SetRow(w, x, r), x, true), d)
  {
    ApplyIsQuiet(w, x, r, Next(env, r), d);
  }

  lemma {:induction false} ApproveIsQuiet(env: Env, w: World, ids: seq<Id>, d: Id)
    ensures Quiet(w, ApproveAll(env, w, ids), d)
  {
    if ids != [] { ApproveIsQuiet(env, w, ids[..|ids| - 1], d); }
  }

  lemma PaperStepIsQuiet(env: Env, w: World, e: Event, d: Id)
    requires e.DoUpload? || e.DoReview? || e.DoIdentity? || e.DoApprove?
    ensures Quiet(w, Step(env, w, e), d)
  {
    match e
    case DoUpload(x, t) =>
      if x in w.rows { RecomputeIsQuiet(env, w, x, w.rows[x].(docs := w.rows[x].docs[t := UNDER_REVIEW]), d); }
    case DoReview(x, t, verified) =>
      if x in w.rows { RecomputeIsQuiet(env, w, x, w.rows[x].(docs := w.rows[x].docs[t := if verified then VERIFIED else DOC_REJECTED]), d); }
    case DoIdentity(x, identity) =>
      if x in w.rows { RecomputeIsQuiet(env, w, x, w.rows[x].(identity := identity), d); }
    case DoApprove(ids) => ApproveIsQuiet(env, w, Collections.Unique(ids), d);
  }

  lemma AdminStepIsQuiet(env: Env, w: World, e: Event, d: Id)
    requires e.DoSetStatus? || e.DoGoOffline? || e.DoTakeOffline?
    ensures Quiet(w, Step(env, w, e), d)
  {
    match e
    case DoSetStatus(x, status) =>
      if x in w.rows {
        SetRowIsQuiet(w, x, WithStatus(w.rows[x], status), d);
        OfflineIsQuiet(Invalidate(SetRow(w, x, WithStatus(w.rows[x], status)), x), x, d);
      }
    case DoGoOffline(x) => if x in w.rows { OfflineIsQuiet(w, x, d); }
    case DoTakeOffline(x) => if x in w.rows { OfflineIsQuiet(w, x, d); }
  }

  lemma RowStepIsQuiet(env: Env, w: World, e: Event, d: Id)
    requires e.DoBlock? || e.DoAdminEdit? || e.DoRegister?
    ensures Quiet(w, Step(env, w, e), d)
  {
  }

  lemma PlateStepIsQuiet(w: World, x: Id, plate: string, d: Id)
    ensures Quiet(w, ChangePlate(w, x, plate).0, d)
  {
  }

  lemma FixStepIsQuiet(env: Env, w: World, e: Event, d: Id)
    requires e.DoFix? || e.CacheExpires? || e.HeartbeatExpires? || e.TripChanges? || e.BusyChanges?
    ensures Quiet(w, Step(env, w, e), d)
  {
    assert Step(env, w, e).rows == w.rows;
  }

  /** Only going online, pausing and ending a pause touch what a pause is made of, and only for their own driver. */
  lemma StepIsQuiet(env: Env, w: World, e: Event, d: Id)
    requires (e.DoGoOnline? || e.DoPause? || e.DoUnblockJob? || e.DoLift?) ==> e.d != d
    ensures Quiet(w, Step(env, w, e), d)
  {
    match e
    case DoUpload(_, _) => PaperStepIsQuiet(env, w, e, d);
    case DoReview(_, _, _) => PaperStepIsQuiet(env, w, e, d);
    case DoIdentity(_, _) => PaperStepIsQuiet(env, w, e, d);
    case DoApprove(_) => PaperStepIsQuiet(env, w, e, d);
    case DoChangePlate(x, plate) => PlateStepIsQuiet(w, x, plate, d);
    case DoGoOnline(x, now, planOk, selfieDue) => if x in w.rows { OfflineIsQuiet(w, x, d); }
    case DoPause(_, _) =>
    case DoUnblockJob(_, _, _, _) =>
    case DoLift(_, _) =>
    case _ =>
      if e.DoFix? || e.CacheExpires? || e.HeartbeatExpires? || e.TripChanges? || e.BusyChanges? { FixStepIsQuiet(env, w, e, d); }
      else if e.DoBlock? || e.DoAdminEdit? || e.DoRegister? { RowStepIsQuiet(env, w, e, d); }
      else { AdminStepIsQuiet(env, w, e, d); }
  }

  /**
   * Before `until`: nobody lifts or shortens the driver's pause. The driver may try to go online, and the jobs of other
   * pauses may run, each no earlier than its own time.
   */
  predicate LeavesPause(e: Event, d: Id, until: int) {
    match e
    case DoGoOnline(x, now, _, _) => x == d ==> now < until
    case DoPause(x, until') => x == d ==> until' >= until
    case DoUnblockJob(x, jobUntil, at, _) => x == d ==> jobUntil <= at < until
    case DoLift(x, isPaused) => x == d ==> !isPaused
    case _ => true
  }

  /** A job ends exactly the pause it was made for, unless that was lifted; a stale one changes nothing. */
  lemma JobEndsItsPauseOnly(w: World, d: Id, until: int, isLifted: bool)
    requires d in w.rows && until > 0
    ensures var w' := UnblockJob(w, d, until, isLifted);
            && (w'.rows[d].blockedUntil != w.rows[d].blockedUntil <==> !isLifted && w.rows[d].blockedUntil == until)
            && (w'.rows[d].blockedUntil == w.rows[d].blockedUntil ==> w' == w)
            && w'.rows == w.rows[d := w'.rows[d]] && w'.dispatch == w.dispatch
  {
  }

  predicate Paused(w: World, d: Id, until: int) {
    d in w.rows && w.rows[d].blockedUntil >= until && !w.rows[d].isOnline
  }

  lemma StepKeepsPause(env: Env, w: World, e: Event, d: Id, until: int)
    requires Paused(w, d, until) && LeavesPause(e, d, until)
    ensures Paused(Step(env, w, e), d, until)
  {
    if !((e.DoGoOnline? || e.DoPause? || e.DoUnblockJob? || e.DoLift?) && e.d == d) { StepIsQuiet(env, w, e, d); }
  }

  /** Whatever else happens to the account, a paused driver is neither online nor in dispatch before the pause ends. */
  lemma {:induction false} PausedStaysOffline(w: World, es: seq<(Env, Event)>, d: Id, until: int)
    requires Safe(w) && Paused(w, d, until) && forall i | 0 <= i < |es| :: LeavesPause(es[i].1, d, until)
    ensures Paused(Exec(w, es), d, until) && d !in Exec(w, es).dispatch
    decreases |es|
  {
    if es == [] {
      assert ViewSafe(Of(w, d));
    } else {
      StepKeepsPause(es[0].0, w, es[0].1, d, until);
      StepIsSafe(es[0].0, w, es[0].1);
      PausedStaysOffline(Step(es[0].0, w, es[0].1), es[1..], d, until);
    }
  }

  /** A pause takes the driver offline and out of dispatch at once; from its end on they may go online again. */
  lemma PauseBegins(env: Env, w: World, d: Id, until: int, now: int)
    requires d in w.rows && w.rows[d].status == APPROVED && (env.isDidit ==> w.rows[d].hasPhoto)
    ensures var w' := Pause(w, d, until).0;
            && Paused(w', d, until) && d !in w'.dispatch
            && (GoOnline(env, w', d, now, true, false).1 == Done <==> now >= until)
  {
  }
}
