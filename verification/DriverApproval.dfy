/** A driver's status from their documents and identity check. */
module DriverApproval {

  datatype DriverStatus = PENDING | APPROVED | REJECTED | ON_HOLD
  datatype DocType = DRIVING_LICENCE | AADHAAR | VEHICLE_RC | INSURANCE | POLICE_VERIFICATION
  datatype DocStatus = NOT_UPLOADED | UNDER_REVIEW | VERIFIED | DOC_REJECTED
  datatype Identity = NOT_STARTED | IN_PROGRESS | IN_REVIEW | ID_APPROVED | DECLINED
  datatype CheckState = DONE | REVIEW | TODO | FAILED

  /** The documents of a driver: one row a type at most. */
  type Docs = map<DocType, DocStatus>

  const REQUIRED_DOCS: seq<DocType> := [VEHICLE_RC, INSURANCE]

  function DocState(docs: Docs, t: DocType): CheckState {
    if t !in docs then TODO
    else match docs[t]
         case VERIFIED => DONE
         case UNDER_REVIEW => REVIEW
         case DOC_REJECTED => FAILED
         case NOT_UPLOADED => TODO
  }

  function IdentityState(i: Identity): CheckState {
    match i
    case ID_APPROVED => DONE
    case IN_REVIEW => REVIEW
    case DECLINED => FAILED
    case _ => TODO
  }

  datatype Checklist = Checklist(checks: seq<CheckState>, isReady: bool, isRejected: bool)

  function ApprovalChecklist(docs: Docs, identity: Identity, isIdentityRequired: bool): Checklist {
    var checks := [DocState(docs, REQUIRED_DOCS[0]), DocState(docs, REQUIRED_DOCS[1])] + (if isIdentityRequired then [IdentityState(identity)] else []);
    Checklist(checks, forall c | c in checks :: c == DONE, exists c | c in checks :: c == FAILED)
  }

  function NextDriverStatus(current: DriverStatus, docs: Docs, identity: Identity, isIdentityRequired: bool, isAutoApprove: bool): DriverStatus {
    if current == ON_HOLD then current
    else
      var check := ApprovalChecklist(docs, identity, isIdentityRequired);
      if check.isRejected then REJECTED
      else if check.isReady && isAutoApprove then APPROVED
      else if current == APPROVED then APPROVED else PENDING
  }

  predicate AllPassed(docs: Docs, identity: Identity, isIdentityRequired: bool) {
    && VEHICLE_RC in docs && docs[VEHICLE_RC] == VERIFIED && INSURANCE in docs && docs[INSURANCE] == VERIFIED
    && (isIdentityRequired ==> identity == ID_APPROVED)
  }

  predicate SomeFailed(docs: Docs, identity: Identity, isIdentityRequired: bool) {
    || (VEHICLE_RC in docs && docs[VEHICLE_RC] == DOC_REJECTED)
    || (INSURANCE in docs && docs[INSURANCE] == DOC_REJECTED)
    || (isIdentityRequired && identity == DECLINED)
  }

  lemma ChecklistMeans(docs: Docs, identity: Identity, isIdentityRequired: bool)
    ensures var check := ApprovalChecklist(docs, identity, isIdentityRequired);
            && (check.isReady <==> AllPassed(docs, identity, isIdentityRequired))
            && (check.isRejected <==> SomeFailed(docs, identity, isIdentityRequired))
            && !(check.isReady && check.isRejected)
  {
    var checks := ApprovalChecklist(docs, identity, isIdentityRequired).checks;
    assert checks[0] == DocState(docs, VEHICLE_RC) && checks[1] == DocState(docs, INSURANCE);
    assert isIdentityRequired ==> checks[2] == IdentityState(identity);
    assert forall c | c in checks :: c == DocState(docs, VEHICLE_RC) || c == DocState(docs, INSURANCE) || (isIdentityRequired && c == IdentityState(identity));
  }

  /** What one step shows: done, waiting for review, failed, and otherwise still to do. */
  predicate Shows(state: CheckState, isDone: bool, isWaiting: bool, isFailed: bool) {
    (state == DONE <==> isDone) && (state == REVIEW <==> isWaiting) && (state == FAILED <==> isFailed)
  }

  lemma DocShows(docs: Docs, t: DocType)
    ensures Shows(DocState(docs, t), (t, VERIFIED) in docs.Items, (t, UNDER_REVIEW) in docs.Items, (t, DOC_REJECTED) in docs.Items)
  {
  }

  /** The steps in their order: the RC, the insurance, and the identity check where one is required. */
  lemma ChecksMean(docs: Docs, identity: Identity, isIdentityRequired: bool)
    ensures var checks := ApprovalChecklist(docs, identity, isIdentityRequired).checks;
            && |checks| == (if isIdentityRequired then 3 else 2)
            && Shows(checks[0], (VEHICLE_RC, VERIFIED) in docs.Items, (VEHICLE_RC, UNDER_REVIEW) in docs.Items, (VEHICLE_RC, DOC_REJECTED) in docs.Items)
            && Shows(checks[1], (INSURANCE, VERIFIED) in docs.Items, (INSURANCE, UNDER_REVIEW) in docs.Items, (INSURANCE, DOC_REJECTED) in docs.Items)
            && (isIdentityRequired ==> Shows(checks[2], identity == ID_APPROVED, identity == IN_REVIEW, identity == DECLINED))
  {
    DocShows(docs, VEHICLE_RC);
    DocShows(docs, INSURANCE);
    var checks := ApprovalChecklist(docs, identity, isIdentityRequired).checks;
    assert checks[0] == DocState(docs, VEHICLE_RC) && checks[1] == DocState(docs, INSURANCE);
    assert isIdentityRequired ==> checks[2] == IdentityState(identity);
  }

  /** Which status comes out, exactly; deciding again on the same papers changes nothing. */
  lemma NextStatusMeans(current: DriverStatus, docs: Docs, identity: Identity, required: bool, auto: bool)
    ensures var next := NextDriverStatus(current, docs, identity, required, auto);
            && (next == ON_HOLD <==> current == ON_HOLD)
            && (next == REJECTED <==> current != ON_HOLD && SomeFailed(docs, identity, required))
            && (next == APPROVED <==> current != ON_HOLD && !SomeFailed(docs, identity, required) && (current == APPROVED || (AllPassed(docs, identity, required) && auto)))
            && NextDriverStatus(next, docs, identity, required, auto) == next
  {
    ChecklistMeans(docs, identity, required);
  }
}
