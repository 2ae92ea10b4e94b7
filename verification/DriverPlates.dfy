/** Number plates over the driver's lifecycle: when two drivers can have one plate in two spacings. */
module DriverPlates {
  import opened JsMath
  import Collections
  import opened DriverApproval
  import opened DriverLifecycle

  type Plates = map<Id, string>

  function PlatesOf(w: World): Plates { map d | d in w.rows :: w.rows[d].plate }

  /** No two drivers have plates that are the same but for case and spacing. */
  ghost predicate Apart(p: Plates) { forall a, b | a in p && b in p && a != b :: !SamePlate(p[a], p[b]) }

  // -------------------------------------------------------------------------------- what a step does to the plates

  ghost predicate SamePlates(w: World, w': World) {
    w'.rows.Keys == w.rows.Keys && forall d | d in w.rows :: w'.rows[d].plate == w.rows[d].plate
  }

  lemma SamePlatesMeans(w: World, w': World)
    requires SamePlates(w, w')
    ensures PlatesOf(w') == PlatesOf(w)
  {
  }

  lemma ApplyKeepsPlates(w: World, d: Id, r: Row, next: DriverStatus)
    requires d in w.rows && r.plate == w.rows[d].plate
    ensures SamePlates(w, Apply(SetRow(w, d, r), d, next, true))
  {
  }

  lemma RecomputeKeepsPlates(env: Env, w: World, d: Id, r: Row)
    requires d in w.rows && r.plate == w.rows[d].plate
    ensures SamePlates(w, Recompute(env, SetRow(w, d, r), d, true))
  {
    ApplyKeepsPlates(w, d, r, Next(env, r));
  }

  lemma {:induction false} ApproveKeepsPlates(env: Env, w: World, ids: seq<Id>)
    ensures SamePlates(w, ApproveAll(env, w, ids))
  {
    if ids != [] { ApproveKeepsPlates(env, w, ids[..|ids| - 1]); }
  }

  predicate IsPaperStep(e: Event) { e.DoUpload? || e.DoReview? || e.DoIdentity? || e.DoApprove? }

  lemma PaperStepKeepsPlates(env: Env, w: World, e: Event)
    requires IsPaperStep(e)
    ensures SamePlates(w, Step(env, w, e))
  {
    match e
    case DoUpload(d, t) =>
      if d in w.rows { RecomputeKeepsPlates(env, w, d, w.rows[d].(docs := w.rows[d].docs[t := UNDER_REVIEW])); }
    case DoReview(d, t, verified) =>
      if d in w.rows { RecomputeKeepsPlates(env, w, d, w.rows[d].(docs := w.rows[d].docs[t := if verified then VERIFIED else DOC_REJECTED])); }
    case DoIdentity(d, identity) =>
      if d in w.rows { RecomputeKeepsPlates(env, w, d, w.rows[d].(identity := identity)); }
    case DoApprove(ids) => ApproveKeepsPlates(env, w, Collections.Unique(ids));
  }

  predicate IsOnlineStep(e: Event) { e.DoGoOnline? || e.DoGoOffline? || e.DoFix? }

  predicate IsStatusStep(e: Event) { e.DoSetStatus? || e.DoTakeOffline? }

  lemma OfflineKeepsPlates(w: World, d: Id)
    requires d in w.rows
    ensures SamePlates(w, GoOffline(w, d)) && SamePlates(w, Changed(w, d, true)) && SamePlates(w, Changed(w, d, false))
  {
  }

  lemma SetRowKeepsPlates(w: World, d: Id, r: Row)
    requires d in w.rows && r.plate == w.rows[d].plate
    ensures SamePlates(w, SetRow(w, d, r))
  {
  }

  lemma StatusKeepsPlates(w: World, d: Id, status: DriverStatus)
    ensures SamePlates(w, SetStatus(w, d, status).0)
  {
    if d in w.rows {
      var w1 := Invalidate(SetRow(w, d, WithStatus(w.rows[d], status)), d);
      SetRowKeepsPlates(w, d, WithStatus(w.rows[d], status));
      OfflineKeepsPlates(w1, d);
    }
  }

  lemma OnlineKeepsPlates(env: Env, w: World, d: Id, now: int, planOk: bool, selfieDue: bool)
    ensures SamePlates(w, GoOnline(env, w, d, now, planOk, selfieDue).0)
  {
    if d in w.rows { OfflineKeepsPlates(w, d); }
  }

  lemma FixKeepsPlates(w: World, d: Id)
    ensures SamePlates(w, GpsFix(w, d).0)
  {
  }

  predicate IsPauseStep(e: Event) { e.DoPause? || e.DoUnblockJob? || e.DoLift? || e.DoBlock? }

  lemma PauseStepKeepsPlates(env: Env, w: World, e: Event)
    requires IsPauseStep(e)
    ensures SamePlates(w, Step(env, w, e))
  {
    match e
    case DoPause(d, until) => if d in w.rows { SetRowKeepsPlates(w, d, w.rows[d].(blockedUntil := until, isOnline := false)); }
    case DoUnblockJob(d, _, _, _) => if d in w.rows { SetRowKeepsPlates(w, d, w.rows[d].(blockedUntil := 0)); }
    case DoLift(d, _) => if d in w.rows { SetRowKeepsPlates(w, d, w.rows[d].(blockedUntil := 0)); }
    case DoBlock(d, isBlocked) => if d in w.rows { SetRowKeepsPlates(w, d, w.rows[d].(isBlocked := isBlocked)); }
  }

  lemma OnlineStepKeepsPlates(env: Env, w: World, e: Event)
    requires IsOnlineStep(e)
    ensures SamePlates(w, Step(env, w, e))
  {
    match e
    case DoGoOnline(d, now, planOk, selfieDue) => OnlineKeepsPlates(env, w, d, now, planOk, selfieDue);
    case DoGoOffline(d) => if d in w.rows { OfflineKeepsPlates(w, d); }
    case DoFix(d) => FixKeepsPlates(w, d);
  }

  lemma StatusStepKeepsPlates(env: Env, w: World, e: Event)
    requires IsStatusStep(e)
    ensures SamePlates(w, Step(env, w, e))
  {
    match e
    case DoSetStatus(d, status) => StatusKeepsPlates(w, d, status);
    case DoTakeOffline(d) => if d in w.rows { OfflineKeepsPlates(w, d); }
  }

  lemma OtherStepKeepsPlates(env: Env, w: World, e: Event)
    requires e.CacheExpires? || e.HeartbeatExpires? || e.TripChanges? || e.BusyChanges?
    ensures SamePlates(w, Step(env, w, e))
  {
    assert Step(env, w, e).rows == w.rows;
  }

  /** The plate text a call offers to store. */
  function Offered(e: Event): Option<string> {
    match e
    case DoRegister(_, _, _, plate, _) => Some(Upper(plate))
    case DoChangePlate(_, plate) => Some(Upper(plate))
    case DoAdminEdit(_, _, newPlate) => if newPlate.Some? then Some(Tidy(newPlate.value)) else None
    case _ => None
  }

  /**
   * What a call checks before it stores a plate, but for the other drivers' plates: a driver registering is no admin
   * and not registered; one changing plates offers another one, and not on a trip when approved or held; an admin does
   * not change the kind of a driver who is online.
   */
  predicate Admits(w: World, e: Event) {
    match e
    case DoRegister(d, isAdmin, _, _, _) => !isAdmin && d !in w.rows
    case DoChangePlate(d, plate) =>
      && d in w.rows && !SamePlate(plate, w.rows[d].plate)
      && !((w.rows[d].status == APPROVED || w.rows[d].status == ON_HOLD) && OnTrip(w, d))
    case DoAdminEdit(d, newKind, newPlate) =>
      d in w.rows && newPlate.Some? && !(newKind.Some? && newKind.value != w.rows[d].kind && w.rows[d].isOnline)
    case _ => false
  }

  function OthersTexts(p: Plates, d: Id): set<string> { set o | o in p && o != d :: p[o] }

  /** The other drivers' plates without case and spacing. */
  function OthersPlain(p: Plates, d: Id): set<string> { set o | o in p && o != d :: Plain(p[o]) }

  function AfterOffer(p: Plates, d: Id, admits: bool, text: string): Plates {
    if admits && text !in OthersTexts(p, d) then p[d := text] else p
  }

  lemma HeldIff(w: World, d: Id, text: string)
    ensures text in OthersTexts(PlatesOf(w), d) <==> exists o | o in w.rows :: o != d && w.rows[o].plate == text
  {
    if o :| o in w.rows && o != d && w.rows[o].plate == text { assert o in PlatesOf(w) && PlatesOf(w)[o] == text; }
  }

  lemma PlateOfSet(w: World, w': World, d: Id, r: Row)
    requires w'.rows == w.rows[d := r]
    ensures PlatesOf(w') == PlatesOf(w)[d := r.plate]
  {
  }

  lemma RegisterPlates(w: World, d: Id, isAdmin: bool, kind: string, plate: string, identity: Identity)
    ensures PlatesOf(Register(w, d, isAdmin, kind, plate, identity).0) == AfterOffer(PlatesOf(w), d, !isAdmin && d !in w.rows, Upper(plate))
  {
    HeldIff(w, d, Upper(plate));
    var w' := Register(w, d, isAdmin, kind, plate, identity).0;
    if !isAdmin && d !in w.rows && Upper(plate) !in OthersTexts(PlatesOf(w), d) { PlateOfSet(w, w', d, w'.rows[d]); }
  }

  lemma ChangedRow(w: World, d: Id, plate: string)
    requires d in w.rows && ChangePlate(w, d, plate).1 == Done
    ensures ChangePlate(w, d, plate).0.rows == w.rows[d := NewVehicle(w.rows[d], plate)]
  {
    var r := NewVehicle(w.rows[d], plate);
    if LeavesApproval(w.rows[d], plate) { assert r.(isOnline := false) == r; }
  }

  lemma ChangedPlates(w: World, d: Id, plate: string)
    ensures PlatesOf(ChangePlate(w, d, plate).0) == AfterOffer(PlatesOf(w), d, Admits(w, DoChangePlate(d, plate)), Upper(plate))
  {
    HeldIff(w, d, Upper(plate));
    if d in w.rows && ChangePlate(w, d, plate).1 == Done {
      ChangedRow(w, d, plate);
      PlateOfSet(w, ChangePlate(w, d, plate).0, d, NewVehicle(w.rows[d], plate));
      assert PlatesOf(w)[d := w.rows[d].plate] == PlatesOf(w);
    }
  }

  lemma EditedRow(w: World, d: Id, kind: Option<string>, plate: Option<string>)
    requires d in w.rows
    ensures var (w', o) := AdminEdit(w, d, kind, plate);
            if o == Done then w'.rows == w.rows[d := Edited(w.rows[d], kind, plate)] else w'.rows == w.rows
  {
  }

  lemma EditedPlates(w: World, d: Id, kind: Option<string>, plate: Option<string>)
    ensures PlatesOf(AdminEdit(w, d, kind, plate).0) ==
            if plate.Some? then AfterOffer(PlatesOf(w), d, Admits(w, DoAdminEdit(d, kind, plate)), Tidy(plate.value)) else PlatesOf(w)
  {
    if d in w.rows {
      EditedRow(w, d, kind, plate);
      EditAdmitted(w, d, kind, plate);
      if AdminEdit(w, d, kind, plate).1 == Done {
        PlateOfSet(w, AdminEdit(w, d, kind, plate).0, d, Edited(w.rows[d], kind, plate));
        SamePlateSet(w, d);
      } else {
        SameRowsSamePlates(w, AdminEdit(w, d, kind, plate).0);
      }
    }
  }

  /** An edit with a plate is done exactly when it is admitted and no other driver has the text. */
  lemma EditAdmitted(w: World, d: Id, kind: Option<string>, plate: Option<string>)
    requires d in w.rows
    ensures plate.Some? ==> (AdminEdit(w, d, kind, plate).1 == Done <==>
              Admits(w, DoAdminEdit(d, kind, plate)) && Tidy(plate.value) !in OthersTexts(PlatesOf(w), d))
  {
    if plate.Some? { HeldIff(w, d, Tidy(plate.value)); }
  }

  lemma SamePlateSet(w: World, d: Id)
    requires d in w.rows
    ensures PlatesOf(w)[d := w.rows[d].plate] == PlatesOf(w)
  {
  }

  lemma SameRowsSamePlates(w: World, w': World)
    requires w'.rows == w.rows
    ensures PlatesOf(w') == PlatesOf(w)
  {
  }

  /** A call stores the text it offers exactly when it is admitted and no other driver has that text. */
  lemma StepPlates(env: Env, w: World, e: Event)
    ensures PlatesOf(Step(env, w, e)) == if Offered(e).Some? then AfterOffer(PlatesOf(w), e.d, Admits(w, e), Offered(e).value) else PlatesOf(w)
  {
    match e
    case DoRegister(d, isAdmin, kind, plate, identity) => RegisterPlates(w, d, isAdmin, kind, plate, identity);
    case DoChangePlate(d, plate) => ChangedPlates(w, d, plate);
    case DoAdminEdit(d, newKind, newPlate) => EditedPlates(w, d, newKind, newPlate);
    case _ =>
      if IsPaperStep(e) { PaperStepKeepsPlates(env, w, e); }
      else if IsOnlineStep(e) { OnlineStepKeepsPlates(env, w, e); }
      else if IsStatusStep(e) { StatusStepKeepsPlates(env, w, e); }
      else if IsPauseStep(e) { PauseStepKeepsPlates(env, w, e); }
      else { OtherStepKeepsPlates(env, w, e); }
      SamePlatesMeans(w, Step(env, w, e));
  }

  // ------------------------------------------------------------------------------------------------- up to spacing

  lemma OfferKeepsApartIff(p: Plates, d: Id, admits: bool, text: string)
    requires Apart(p)
    ensures Apart(AfterOffer(p, d, admits, text)) <==> !(admits && text !in OthersTexts(p, d) && Plain(text) in OthersPlain(p, d))
  {
    if admits && text !in OthersTexts(p, d) {
      var p' := p[d := text];
      if o :| o in p && o != d && Plain(p[o]) == Plain(text) {
        assert p'[o] == p[o] && SamePlate(p'[o], p'[d]);
      } else {
        assert forall o | o in p && o != d :: Plain(p[o]) in OthersPlain(p, d);
      }
    }
  }

  /**
   * A call lets two drivers have one plate exactly when it is admitted, no other driver has the text offered, and
   * without spacing another driver has it: which its caller can look up before.
   */
  lemma StepKeepsApartIff(env: Env, w: World, e: Event)
    requires Apart(PlatesOf(w))
    ensures Apart(PlatesOf(Step(env, w, e))) <==>
            !(Offered(e).Some? && Admits(w, e) && Offered(e).value !in OthersTexts(PlatesOf(w), e.d) && Plain(Offered(e).value) in OthersPlain(PlatesOf(w), e.d))
  {
    StepPlates(env, w, e);
    if Offered(e).Some? { OfferKeepsApartIff(PlatesOf(w), e.d, Admits(w, e), Offered(e).value); }
  }

  /** All plate texts offered over a run. */
  function AllOffered(es: seq<(Env, Event)>): set<string> {
    if es == [] then {}
    else (if Offered(es[0].1).Some? then {Offered(es[0].1).value} else {}) + AllOffered(es[1..])
  }

  /** Every plate is always written in one way. */
  ghost predicate OneSpacing(texts: set<string>) { forall a, b | a in texts && b in texts && SamePlate(a, b) :: a == b }

  lemma OneSpacingMeansHeld(p: Plates, d: Id, text: string, texts: set<string>)
    requires OneSpacing(texts) && p.Values <= texts && text in texts && Plain(text) in OthersPlain(p, d)
    ensures text in OthersTexts(p, d)
  {
    var o :| o in p && o != d && Plain(p[o]) == Plain(text);
    assert p[o] in p.Values && SamePlate(p[o], text);
  }

  lemma OfferKeepsApart(p: Plates, d: Id, admits: bool, text: string, texts: set<string>)
    requires Apart(p) && OneSpacing(texts) && p.Values <= texts && text in texts
    ensures Apart(AfterOffer(p, d, admits, text)) && AfterOffer(p, d, admits, text).Values <= texts
  {
    OfferKeepsApartIff(p, d, admits, text);
    if Plain(text) in OthersPlain(p, d) { OneSpacingMeansHeld(p, d, text, texts); }
  }

  /**
   * Whatever is called in whatever order: when those already stored and those typed never write one plate in two ways,
   * no two drivers ever have one plate. Nothing is asked of the states in between.
   */
  lemma {:induction false} PlatesStayApart(w: World, es: seq<(Env, Event)>, texts: set<string>)
    requires Apart(PlatesOf(w)) && OneSpacing(texts) && PlatesOf(w).Values <= texts && AllOffered(es) <= texts
    ensures Apart(PlatesOf(Exec(w, es)))
    decreases |es|
  {
    if es != [] {
      var (env, e) := es[0];
      StepPlates(env, w, e);
      if Offered(e).Some? { OfferKeepsApart(PlatesOf(w), e.d, Admits(w, e), Offered(e).value, texts); }
      PlatesStayApart(Step(env, w, e), es[1..], texts);
    }
  }

  // ------------------------------------------------------------------------- the plates that requests let through

  /** A plate in groups, with the white space typed between them. */
  datatype Parts = Parts(state: string, s1: string, district: string, s2: string, series: string, s3: string, number: string)

  predicate IsLetter(c: char) { 'a' <= c <= 'z' || 'A' <= c <= 'Z' }

  predicate IsDigit(c: char) { '0' <= c <= '9' }

  predicate OptSpace(s: string) { s == "" || (|s| == 1 && IsSpace(s[0])) }

  /** Two letters, one or two digits, up to three letters, one to four digits, with at most one white space between groups. */
  predicate Matches(p: Parts) {
    && |p.state| == 2 && 1 <= |p.district| <= 2 && |p.series| <= 3 && 1 <= |p.number| <= 4
    && (forall c | c in p.state + p.series :: IsLetter(c)) && (forall c | c in p.district + p.number :: IsDigit(c))
    && OptSpace(p.s1) && OptSpace(p.s2) && OptSpace(p.s3)
  }

  function TextOf(p: Parts): string { p.state + (p.s1 + (p.district + (p.s2 + (p.series + (p.s3 + p.number))))) }

  predicate SameGroups(p: Parts, q: Parts) { p.state == q.state && p.district == q.district && p.series == q.series && p.number == q.number }

  lemma {:induction false} PlainConcat(a: string, b: string)
    ensures Plain(a + b) == Plain(a) + Plain(b)
  {
    if a == "" {
      assert a + b == b;
    } else {
      assert (a + b)[1..] == a[1..] + b;
      PlainConcat(a[1..], b);
    }
  }

  lemma PlainAfterSpace(space: string, rest: string)
    requires OptSpace(space)
    ensures Plain(space + rest) == Plain(rest)
  {
    PlainConcat(space, rest);
    if space != "" { assert space[1..] == ""; }
  }

  lemma PlainOfText(p: Parts)
    requires Matches(p)
    ensures Plain(TextOf(p)) == Plain(p.state) + (Plain(p.district) + (Plain(p.series) + Plain(p.number)))
  {
    PlainAfterSpace(p.s3, p.number);
    PlainConcat(p.series, p.s3 + p.number);
    PlainAfterSpace(p.s2, p.series + (p.s3 + p.number));
    PlainConcat(p.district, p.s2 + (p.series + (p.s3 + p.number)));
    PlainAfterSpace(p.s1, p.district + (p.s2 + (p.series + (p.s3 + p.number))));
    PlainConcat(p.state, p.s1 + (p.district + (p.s2 + (p.series + (p.s3 + p.number)))));
  }

  /** Between the groups, spacing makes another text of the same plate. */
  lemma SameGroupsSamePlate(p: Parts, q: Parts)
    requires Matches(p) && Matches(q) && SameGroups(p, q)
    ensures SamePlate(Upper(TextOf(p)), Upper(TextOf(q)))
  {
    PlainOfText(p);
    PlainOfText(q);
    PlainOfUpper(TextOf(p));
    PlainOfUpper(TextOf(q));
  }

  lemma {:induction false} UpperLength(s: string)
    ensures |Upper(s)| == |s|
  {
    if s != "" { UpperLength(s[1..]); }
  }

  lemma RegistersIff(w: World, d: Id, plate: string, identity: Identity)
    requires d !in w.rows
    ensures Register(w, d, false, "CAB", plate, identity).1 == Done <==> Upper(plate) !in OthersTexts(PlatesOf(w), d)
  {
    HeldIff(w, d, Upper(plate));
  }

  lemma TwoRegister(w: World, a: Id, b: Id, first: string, second: string, identity: Identity)
    requires w.rows == map[] && a != b
    ensures var (w1, o1) := Register(w, a, false, "CAB", first, identity);
            var (w2, o2) := Register(w1, b, false, "CAB", second, identity);
            && o1 == Done && (o2 == Done <==> Upper(first) != Upper(second))
            && (o2 == Done ==> PlatesOf(w2) == map[a := Upper(first), b := Upper(second)])
  {
    var w1 := Register(w, a, false, "CAB", first, identity).0;
    RegistersIff(w, a, first, identity);
    RegisterPlates(w, a, false, "CAB", first, identity);
    assert OthersTexts(PlatesOf(w), a) == {};
    assert PlatesOf(w1) == map[a := Upper(first)];
    assert w1.rows.Keys == PlatesOf(w1).Keys;
    SecondRegisters(w1, a, b, Upper(first), second, identity);
  }

  lemma SecondRegisters(w: World, a: Id, b: Id, held: string, second: string, identity: Identity)
    requires w.rows.Keys == {a} && a != b && PlatesOf(w) == map[a := held]
    ensures var (w', o) := Register(w, b, false, "CAB", second, identity);
            (o == Done <==> held != Upper(second)) && (o == Done ==> PlatesOf(w') == map[a := held, b := Upper(second)])
  {
    RegistersIff(w, b, second, identity);
    RegisterPlates(w, b, false, "CAB", second, identity);
    assert OthersTexts(PlatesOf(w), b) == {held} by { assert PlatesOf(w)[a] == held; }
  }

  /** One plate that requests let through, in two spacings: a second driver gets it exactly when the stored texts differ. */
  lemma RespacedPlateIsAcceptedIff(w: World, a: Id, b: Id, p: Parts, q: Parts, identity: Identity)
    requires w.rows == map[] && a != b && Matches(p) && Matches(q) && SameGroups(p, q)
    ensures var (w1, o1) := Register(w, a, false, "CAB", TextOf(p), identity);
            var (w2, o2) := Register(w1, b, false, "CAB", TextOf(q), identity);
            && o1 == Done && (o2 == Done <==> Upper(TextOf(p)) != Upper(TextOf(q)))
            && (o2 == Done ==> !Apart(PlatesOf(w2)))
  {
    TwoRegister(w, a, b, TextOf(p), TextOf(q), identity);
    SameGroupsSamePlate(p, q);
    var m: Plates := map[a := Upper(TextOf(p)), b := Upper(TextOf(q))];
    assert SamePlate(m[a], m[b]);
  }

  /** A space before the district is enough. */
  lemma RespacedPlateIsAccepted(w: World, a: Id, b: Id, p: Parts, identity: Identity)
    requires w.rows == map[] && a != b && Matches(p) && p.s1 == ""
    ensures var q := p.(s1 := " ");
            var (w1, o1) := Register(w, a, false, "CAB", TextOf(p), identity);
            var (w2, o2) := Register(w1, b, false, "CAB", TextOf(q), identity);
            Matches(q) && o1 == Done && o2 == Done && !Apart(PlatesOf(w2))
  {
    var q := p.(s1 := " ");
    assert |TextOf(q)| == |TextOf(p)| + 1;
    UpperLength(TextOf(p));
    UpperLength(TextOf(q));
    RespacedPlateIsAcceptedIff(w, a, b, p, q, identity);
  }

  // ----------------------------------------------------------------------------------- an admin's plate is the same

  lemma {:induction false} PlainOfUpper(s: string)
    ensures Plain(Upper(s)) == Plain(s)
  {
    if s != "" { PlainOfUpper(s[1..]); }
  }

  lemma {:induction false} PlainOfSqueeze(s: string)
    ensures Plain(Squeeze(s)) == Plain(s)
  {
    if s != "" {
      PlainOfSqueeze(s[1..]);
      if IsSpace(s[0]) { assert (" " + Squeeze(s[1..]))[1..] == Squeeze(s[1..]); } else { assert ([s[0]] + Squeeze(s[1..]))[1..] == Squeeze(s[1..]); }
    }
  }

  lemma {:induction false} PlainOfLastSpace(s: string)
    requires s != "" && IsSpace(s[|s| - 1])
    ensures Plain(s[..|s| - 1]) == Plain(s)
  {
    if |s| > 1 {
      PlainOfLastSpace(s[1..]);
      assert s[..|s| - 1][1..] == s[1..][..|s| - 2];
    }
  }

  lemma {:induction false} PlainOfTrim(s: string)
    ensures Plain(Trim(s)) == Plain(s)
    decreases |s|
  {
    if s != "" && IsSpace(s[0]) {
      PlainOfTrim(s[1..]);
    } else if s != "" && IsSpace(s[|s| - 1]) {
      PlainOfTrim(s[..|s| - 1]);
      PlainOfLastSpace(s);
    }
  }

  /** However an admin types a plate, what is stored is the same plate. */
  lemma TidyIsSamePlate(plate: string)
    ensures SamePlate(Tidy(plate), plate) && SamePlate(Upper(plate), plate)
  {
    PlainOfUpper(plate);
    PlainOfSqueeze(Upper(plate));
    PlainOfTrim(Squeeze(Upper(plate)));
  }

  /** Text with no white space but single spaces between other characters. */
  predicate SingleSpaced(s: string) {
    forall i | 0 <= i < |s| && IsSpace(s[i]) :: s[i] == ' ' && (i + 1 < |s| ==> !IsSpace(s[i + 1]))
  }

  lemma {:induction false} SqueezeIsSingleSpaced(s: string)
    ensures SingleSpaced(Squeeze(s))
    ensures s != "" && !IsSpace(s[0]) ==> Squeeze(s) != "" && Squeeze(s)[0] == s[0]
  {
    if s != "" {
      SqueezeIsSingleSpaced(s[1..]);
      var rest, all := Squeeze(s[1..]), Squeeze(s);
      if !IsSpace(s[0]) || |s| == 1 || !IsSpace(s[1]) {
        assert all[1..] == rest;
        forall i | 0 <= i < |all| && IsSpace(all[i]) ensures all[i] == ' ' && (i + 1 < |all| ==> !IsSpace(all[i + 1])) {
          if i > 0 { assert all[i] == rest[i - 1]; }
        }
      }
    }
  }

  lemma {:induction false} TrimKeepsSingleSpaced(s: string)
    requires SingleSpaced(s)
    ensures var t := Trim(s); SingleSpaced(t) && (t != "" ==> !IsSpace(t[0]) && !IsSpace(t[|t| - 1]))
    decreases |s|
  {
    if s != "" && IsSpace(s[0]) {
      TrimKeepsSingleSpaced(s[1..]);
    } else if s != "" && IsSpace(s[|s| - 1]) {
      TrimKeepsSingleSpaced(s[..|s| - 1]);
    }
  }

  /** What an admin's plate is stored as: single spaces inside, none at the ends. */
  lemma TidyIsSingleSpaced(plate: string)
    ensures var t := Tidy(plate); SingleSpaced(t) && (t != "" ==> !IsSpace(t[0]) && !IsSpace(t[|t| - 1]))
  {
    SqueezeIsSingleSpaced(Upper(plate));
    TrimKeepsSingleSpaced(Squeeze(Upper(plate)));
  }

  /** Upper case, letter by letter; nothing else changes. */
  lemma {:induction false} UpperByLetter(s: string, i: nat)
    requires i < |s|
    ensures |Upper(s)| == |s| && Upper(s)[i] == (if 'a' <= s[i] <= 'z' then ('A' as int + (s[i] as int - 'a' as int)) as char else s[i])
  {
    if i > 0 { UpperByLetter(s[1..], i - 1); } else { UpperLength(s); }
  }

  /** Without white space, what is compared of a plate is its whole upper-case text. */
  lemma {:induction false} PlainKeepsTheRest(s: string)
    requires forall i | 0 <= i < |s| :: !IsSpace(s[i])
    ensures Plain(s) == Upper(s)
  {
    if s != "" { PlainKeepsTheRest(s[1..]); }
  }
}
