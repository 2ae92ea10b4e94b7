/** What every interleaving of the job protocol keeps: lease order, fencing, no lost job, bounded failures. */
module JobSafety {
  import opened JsMath
  import opened Collections
  import opened JobStore
  import opened JobKeys
  import opened JobProtocol

  // ------------------------------------------------------------------------------- leases only move forward

  /** The score of an owned entry is its owner's lease; an entry nobody owns is due on a whole millisecond. */
  ghost predicate ScoresOk(a: Owned) {
    forall k | k in a.entries :: EntryOk(a, k, a.entries[k])
  }

  ghost predicate EntryOk(a: Owned, k: Key, e: Entry) {
    match e.holder
    case Some(r) => r < |a.runs| && a.runs[r].key == k && e.score == a.runs[r].Lease()
    case None => IsWhole(e.score)
  }

  /** Whoever claims run `i`'s key next does so in a later millisecond than run `i` did, unless `i` still owns it. */
  ghost predicate Behind(a: Owned, i: nat)
    requires i < |a.runs|
  {
    var k := a.runs[i].key;
    k in a.entries ==>
      match a.entries[k].holder
      case Some(r) => r < |a.runs| && Floor(a.runs[i].at) <= Floor(a.runs[r].at) && (Floor(a.runs[i].at) == Floor(a.runs[r].at) ==> i == r)
      case None => (Floor(a.runs[i].at) as real) < a.entries[k].score
  }

  ghost predicate LiveBehind(a: Owned) {
    forall q | q in a.live :: q < |a.runs| && Behind(a, q)
  }

  /** A re-schedule for later than the millisecond in which the key's live runs were claimed. */
  ghost predicate ScheduledAhead(a: Owned, key: Key, runAt: real) {
    forall q | q in a.live && q < |a.runs| && a.runs[q].key == key :: Floor(a.runs[q].at) < Round(runAt)
  }

  ghost predicate SchedulesAhead(h: Handlers, a: Owned, es: seq<Event>)
    decreases |es|
  {
    es != [] ==>
      && (es[0].Schedule? ==> ScheduledAhead(a, es[0].key, es[0].runAt))
      && SchedulesAhead(h, OwnedStep(h, a, es[0]), es[1..])
  }

  lemma ClaimIsLater(a: Owned, i: nat, at: real)
    requires i < |a.runs| && ScoresOk(a) && Behind(a, i)
    requires a.runs[i].key in a.entries && a.entries[a.runs[i].key].score <= at
    ensures Floor(a.runs[i].at) < Floor(at)
  {
    assert EntryOk(a, a.runs[i].key, a.entries[a.runs[i].key]);
  }

  lemma LiveBehindMeansApart(a: Owned, at: real, ids: seq<Key>)
    requires ScoresOk(a) && LiveBehind(a) && Enabled(Abs(a), Claim(at, ids))
    ensures Apart(a.runs, a.live, at, ids)
  {
    forall r | r in a.live && r < |a.runs| && a.runs[r].key in ids ensures Floor(a.runs[r].at) != Floor(at) {
      var i :| 0 <= i < |ids| && ids[i] == a.runs[r].key;
      assert ids[i] in DueKeys(StoreOf(a), at);
      ClaimIsLater(a, r, at);
    }
  }

  lemma StepKeepsScores(h: Handlers, a: Owned, e: Event)
    requires ScoresOk(a) && Enabled(Abs(a), e)
    ensures ScoresOk(OwnedStep(h, a, e))
  {
    var a' := OwnedStep(h, a, e);
    forall k | k in a'.entries ensures EntryOk(a', k, a'.entries[k]) {
      if k in a.entries { assert EntryOk(a, k, a.entries[k]); }
      match e
      case Schedule(_, runAt, _) => assert (Round(runAt) as real).Floor == Round(runAt);
      case Claim(at, ids) => if k in ids { assert ids[IndexIn(ids, k)] == k; }
      case End(r, threw) =>
        if a'.entries[k] != a.entries[k] {
          var n := Round(a.runs[r].at + RetryDelay(a.runs[r].data.a + 1, h[ParseJobKey(k).kind].backoffMs));
          assert (n as real).Floor == n;
        }
      case _ =>
    }
  }

  lemma RetryIsLater(h: Handlers, r: Run)
    requires BackoffOk(h) && ParseJobKey(r.key).kind in h && r.data.a + 1 < h[ParseJobKey(r.key).kind].maxAttempts
    ensures Floor(r.at) < Round(r.at + RetryDelay(r.data.a + 1, h[ParseJobKey(r.key).kind].backoffMs))
  {
    RetriesLaterFromOneMs(h[ParseJobKey(r.key).kind], r.at);
  }

  /** Any one step keeps any one run behind its key's next claim, provided a re-schedule of that key lies ahead. */
  lemma StepKeepsBehind(h: Handlers, a: Owned, e: Event, i: nat)
    requires BackoffOk(h) && ScoresOk(a) && Enabled(Abs(a), e) && i < |a.runs| && Behind(a, i)
    requires e.Schedule? && e.key == a.runs[i].key ==> Floor(a.runs[i].at) < Round(e.runAt)
    ensures i < |OwnedStep(h, a, e).runs| && Behind(OwnedStep(h, a, e), i)
  {
    var a', k := OwnedStep(h, a, e), a.runs[i].key;
    assert a'.runs[i] == a.runs[i];
    match e
    case Claim(at, ids) =>
      if k in ids {
        var j := IndexIn(ids, k);
        assert ids[j] in DueKeys(StoreOf(a), at);
        ClaimIsLater(a, i, at);
        assert a'.runs[|a.runs| + j] == NewRuns(StoreOf(a), ids, at)[j];
      } else if k in a.entries && a.entries[k].holder.Some? {
        assert a'.runs[a.entries[k].holder.value] == a.runs[a.entries[k].holder.value];
      }
    case End(r, threw) =>
      if k in a'.entries && a'.entries[k] != a.entries[k] { RetryIsLater(h, a.runs[r]); }
    case _ =>
  }

  lemma ClaimStartsBehind(h: Handlers, a: Owned, at: real, ids: seq<Key>, q: nat)
    requires Enabled(Abs(a), Claim(at, ids)) && |a.runs| <= q < |a.runs| + |ids|
    ensures Behind(OwnedStep(h, a, Claim(at, ids)), q)
  {
    ClaimAndNewRun(h, a, at, ids, q);
  }

  lemma StepKeepsLiveBehind(h: Handlers, a: Owned, e: Event)
    requires BackoffOk(h) && ScoresOk(a) && LiveBehind(a) && Enabled(Abs(a), e)
    requires e.Schedule? ==> ScheduledAhead(a, e.key, e.runAt)
    ensures LiveBehind(OwnedStep(h, a, e))
  {
    var a' := OwnedStep(h, a, e);
    forall q | q in a'.live ensures q < |a'.runs| && Behind(a', q) {
      if q in a.live {
        StepKeepsBehind(h, a, e, q);
      } else {
        ClaimStartsBehind(h, a, e.at, e.ids, q);
      }
    }
  }

  /**
   * Fencing needs no luck with the clock: over any interleaving whose re-schedules lie ahead of the key's live
   * runs, the score check acts exactly as an owner check would.
   */
  lemma {:induction false} FencedWhenSchedulesAhead(h: Handlers, a: Owned, es: seq<Event>)
    requires BackoffOk(h) && Fenced(a) && ScoresOk(a) && LiveBehind(a)
    requires CanExec(h, Abs(a), es) && SchedulesAhead(h, a, es)
    ensures var a' := OwnedExec(h, a, es); Abs(a') == Exec(h, Abs(a), es) && Fenced(a') && ScoresOk(a') && LiveBehind(a')
    decreases |es|
  {
    if es != [] {
      if es[0].Claim? { LiveBehindMeansApart(a, es[0].at, es[0].ids); }
      StepRefines(h, a, es[0]);
      StepKeepsScores(h, a, es[0]);
      StepKeepsLiveBehind(h, a, es[0]);
      FencedWhenSchedulesAhead(h, OwnedStep(h, a, es[0]), es[1..]);
    }
  }

  /** The same from the empty store, so for every reachable state. */
  lemma ReachableIsFenced(h: Handlers, es: seq<Event>)
    requires BackoffOk(h) && CanExec(h, Init, es) && SchedulesAhead(h, InitOwned, es)
    ensures var a := OwnedExec(h, InitOwned, es); Abs(a) == Exec(h, Init, es) && Fenced(a) && ScoresOk(a) && LiveBehind(a)
  {
    assert Abs(InitOwned) == Init by {
      assert StoreOf(InitOwned).due == map[] && StoreOf(InitOwned).data == map[];
    }
    FencedWhenSchedulesAhead(h, InitOwned, es);
  }

  /** A run that lost its entry (re-scheduled, cancelled or claimed by another) changes nothing when it ends. */
  lemma SupersededEndChangesNothing(h: Handlers, a: Owned, r: nat, threw: bool)
    requires Fenced(a) && r in a.live && !HeldBy(a, r)
    ensures Step(h, Abs(a), End(r, threw)).store == Abs(a).store
  {
  }

  lemma ScheduleThenClaim(h: Handlers, s: Sys, key: Key, n: int)
    requires s.store.due.Keys <= {key}
    ensures var at := n as real;
            var s1 := Step(h, s, Schedule(key, at, Null));
            && Enabled(s1, Claim(at, [key]))
            && Step(h, s1, Claim(at, [key])) ==
                 Sys(Add(s.store, key, LeaseFor(at, LEASE_MS), JobData(Null, 0)), s.runs + [Run(key, JobData(Null, 0), at)], s.live + {|s.runs|})
  {
    var at := n as real;
    assert (at + 0.5).Floor == n && at.Floor == n;
    var s1 := Step(h, s, Schedule(key, at, Null));
    assert DueKeys(s1.store, at) == {key};
    assert IsBatch(s1.store, at, 1, [key]);
    assert Leased(s1.store, [key], LeaseFor(at, LEASE_MS)).due == s.store.due[key := LeaseFor(at, LEASE_MS)];
  }

  /** Without the assumption it does: a handler re-schedules its key for now, the key is claimed in the same millisecond. */
  lemma SameMillisecondReclaimIsNotFenced(h: Handlers, key: Key, n: int)
    ensures var at := n as real;
            var s2 := Step(h, Step(h, Init, Schedule(key, at, Null)), Claim(at, [key]));
            var s4 := Step(h, Step(h, s2, Schedule(key, at, Null)), Claim(at, [key]));
            && Enabled(Step(h, Init, Schedule(key, at, Null)), Claim(at, [key]))
            && Enabled(Step(h, s2, Schedule(key, at, Null)), Claim(at, [key])) && Enabled(s4, End(0, false))
            && 1 in s4.live && key !in Step(h, s4, End(0, false)).store.due
  {
    ScheduleThenClaim(h, Init, key, n);
    var s2 := Step(h, Step(h, Init, Schedule(key, n as real, Null)), Claim(n as real, [key]));
    ScheduleThenClaim(h, s2, key, n);
  }

  // ----------------------------------------------------------------------- successive leases strictly increase

  ghost predicate Increasing(rs: seq<Run>, k: Key, n: nat) {
    forall i, j | n <= i < j < |rs| && rs[i].key == k && rs[j].key == k :: rs[i].Lease() < rs[j].Lease()
  }

  /** Whoever claims `k` at this score claims it in a later millisecond than run `r` did, or `r` holds it still. */
  ghost predicate ScorePast(score: real, r: Run) {
    (IsWhole(score) && (Floor(r.at) as real) < score) || (IsLease(score) && r.Lease() <= score)
  }

  /** Of the runs of `k` from index `n` on, later ones hold strictly later leases, and the key's score is past them all. */
  ghost predicate LeasesGrow(s: Sys, k: Key, n: nat) {
    && Increasing(s.runs, k, n)
    && (k in s.store.due ==>
          && (IsWhole(s.store.due[k]) || IsLease(s.store.due[k]))
          && forall i | n <= i < |s.runs| && s.runs[i].key == k :: ScorePast(s.store.due[k], s.runs[i]))
  }

  ghost predicate NeverScheduled(k: Key, es: seq<Event>) {
    forall i | 0 <= i < |es| :: !(es[i].Schedule? && es[i].key == k)
  }

  /** Retries of the key's own kind wait at least a millisecond; other kinds may do as they like. */
  ghost predicate KindBackoffOk(h: Handlers, k: Key) {
    ParseJobKey(k).kind in h ==> h[ParseJobKey(k).kind].backoffMs >= 1.0
  }

  lemma LeaseIsLease(at: real)
    ensures IsLease(LeaseFor(at, LEASE_MS)) && !IsWhole(LeaseFor(at, LEASE_MS))
  {
    var n := Floor(at) + LEASE_MS;
    assert (n as real + 0.5).Floor == n;
  }

  lemma WholeIsWhole(n: int)
    ensures IsWhole(n as real) && !IsLease(n as real)
  {
    assert (n as real).Floor == n;
  }

  lemma ClaimIsPast(score: real, r: Run, at: real)
    requires ScorePast(score, r) && score <= at
    ensures r.Lease() < LeaseFor(at, LEASE_MS)
  {
  }

  lemma ClaimKeepsLeasesGrow(h: Handlers, s: Sys, at: real, ids: seq<Key>, k: Key, n: nat)
    requires Enabled(s, Claim(at, ids)) && LeasesGrow(s, k, n)
    ensures LeasesGrow(Step(h, s, Claim(at, ids)), k, n)
  {
    var s', lease := Step(h, s, Claim(at, ids)), LeaseFor(at, LEASE_MS);
    LeaseIsLease(at);
    if i: int :| 0 <= i < |ids| && ids[i] == k {
      assert ids[i] in DueKeys(s.store, at);
      forall i | n <= i < |s.runs| && s.runs[i].key == k ensures s.runs[i].Lease() < lease {
        ClaimIsPast(s.store.due[k], s.runs[i], at);
      }
    }
    forall i | n <= i < |s'.runs| && s'.runs[i].key == k
      ensures i < |s.runs| ==> s'.runs[i] == s.runs[i]
      ensures i >= |s.runs| ==> ids[i - |s.runs|] == k && s'.runs[i].Lease() == lease
    {
    }
    forall i, j | n <= i < j < |s'.runs| && s'.runs[i].key == k && s'.runs[j].key == k
      ensures s'.runs[i].Lease() < s'.runs[j].Lease()
    {
      if j >= |s.runs| { assert i < |s.runs|; }
    }
  }

  lemma EndKeepsLeasesGrow(h: Handlers, s: Sys, r: nat, threw: bool, k: Key, n: nat)
    requires KindBackoffOk(h, k) && r < |s.runs| && LeasesGrow(s, k, n)
    ensures LeasesGrow(Step(h, s, End(r, threw)), k, n)
  {
    var s', run := Step(h, s, End(r, threw)), s.runs[r];
    if k in s'.store.due && s'.store.due != s.store.due && run.key == k {
      var h', attempt := h[ParseJobKey(k).kind], run.data.a + 1;
      RetriesLaterFromOneMs(h', run.at);
      LeaseIsLease(run.at);
      WholeIsWhole(Round(run.at + RetryDelay(attempt, h'.backoffMs)));
    }
  }

  /** Over every interleaving, every claim of a key that is not re-scheduled gets a strictly later lease than all before. */
  lemma {:induction false} SuccessiveLeasesIncrease(h: Handlers, s: Sys, es: seq<Event>, k: Key, n: nat)
    requires KindBackoffOk(h, k) && CanExec(h, s, es) && NeverScheduled(k, es) && LeasesGrow(s, k, n)
    ensures LeasesGrow(Exec(h, s, es), k, n)
    decreases |es|
  {
    if es != [] {
      match es[0] {
        case Claim(at, ids) => ClaimKeepsLeasesGrow(h, s, at, ids, k, n);
        case End(r, threw) => EndKeepsLeasesGrow(h, s, r, threw, k, n);
        case _ =>
      }
      SuccessiveLeasesIncrease(h, Step(h, s, es[0]), es[1..], k, n);
    }
  }

  ghost predicate ScoresShaped(s: Store) {
    forall k | k in s.due :: IsWhole(s.due[k]) || IsLease(s.due[k])
  }

  lemma StepKeepsShape(h: Handlers, s: Sys, e: Event)
    requires ScoresShaped(s.store)
    ensures ScoresShaped(Step(h, s, e).store)
  {
    match e
    case Schedule(_, runAt, _) => WholeIsWhole(Round(runAt));
    case Claim(at, _) => LeaseIsLease(at);
    case End(r, _) =>
      if r < |s.runs| {
        var run := s.runs[r];
        var kind := ParseJobKey(run.key).kind;
        if kind in h { WholeIsWhole(Round(run.at + RetryDelay(run.data.a + 1, h[kind].backoffMs))); }
      }
    case _ =>
  }

  lemma {:induction false} ReachableScoresShaped(h: Handlers, s: Sys, es: seq<Event>)
    requires ScoresShaped(s.store)
    ensures ScoresShaped(Exec(h, s, es).store)
    decreases |es|
  {
    if es != [] {
      StepKeepsShape(h, s, es[0]);
      ReachableScoresShaped(h, Step(h, s, es[0]), es[1..]);
    }
  }

  /** From any reachable state on, with no word on any other key, kind or run. */
  lemma LeasesGrowFromAnywhere(h: Handlers, before: seq<Event>, after: seq<Event>, k: Key)
    requires var s := Exec(h, Init, before); KindBackoffOk(h, k) && CanExec(h, s, after) && NeverScheduled(k, after)
    ensures var s := Exec(h, Init, before); Increasing(Exec(h, s, after).runs, k, |s.runs|)
  {
    ReachableScoresShaped(h, Init, before);
    var s := Exec(h, Init, before);
    SuccessiveLeasesIncrease(h, s, after, k, |s.runs|);
  }

  // ------------------------------------------------------------------------------------ hidden until the lease

  /** Nothing in `es` re-schedules or cancels `k`, or ends run `r`, and no claim is made with a clock at or past `lease`. */
  ghost predicate Undisturbed(es: seq<Event>, k: Key, r: nat, lease: real) {
    forall i | 0 <= i < |es| ::
      match es[i]
      case Schedule(key, _, _) => key != k
      case Cancel(key) => key != k
      case Claim(at, _) => at < lease
      case End(q, _) => q != r
      case Crash(_) => true
  }

  /** Run `r` holds its key, and no other live run of the key has the same lease. */
  ghost predicate HoldsAlone(s: Sys, r: nat) {
    && r < |s.runs| && Holds(s.store, s.runs[r].key, s.runs[r].Lease())
    && forall q | q in s.live && q < |s.runs| && q != r && s.runs[q].key == s.runs[r].key :: s.runs[q].Lease() != s.runs[r].Lease()
  }

  /** A claim starts a run that holds its key alone exactly when no live run of the key was claimed in the same floored millisecond. */
  lemma ClaimHoldsAloneIff(h: Handlers, s: Sys, at: real, ids: seq<Key>, i: nat)
    requires Enabled(s, Claim(at, ids)) && i < |ids|
    ensures HoldsAlone(Step(h, s, Claim(at, ids)), |s.runs| + i) <==>
            forall q | q in s.live && q < |s.runs| && s.runs[q].key == ids[i] :: Floor(s.runs[q].at) != Floor(at)
  {
    var s', r := Step(h, s, Claim(at, ids)), |s.runs| + i;
    assert ids[i] in DueKeys(s.store, at);
    assert s'.runs[r].key == ids[i] && Holds(s'.store, ids[i], s'.runs[r].Lease());
    forall q | q in s.live && q < |s.runs| ensures s'.runs[q] == s.runs[q] && q in s'.live {}
    forall q | q in s'.live && |s.runs| <= q < |s'.runs| && q != r ensures s'.runs[q].key != ids[i] {
      assert s'.runs[q].key == ids[q - |s.runs|];
    }
  }

  lemma StepKeepsHeld(h: Handlers, s: Sys, e: Event, r: nat)
    requires HoldsAlone(s, r) && Enabled(s, e) && Undisturbed([e], s.runs[r].key, r, s.runs[r].Lease())
    ensures HoldsAlone(Step(h, s, e), r) && Step(h, s, e).runs[r] == s.runs[r]
    ensures e.Claim? ==> s.runs[r].key !in e.ids
  {
    assert [e][0] == e;
    if e.Claim? {
      assert s.runs[r].key !in DueKeys(s.store, e.at);
      assert s.runs[r].key !in e.ids;
    }
  }

  /**
   * A claimed key is not handed out again before its lease, and stays scheduled at the lease whether its run is
   * slow or has crashed: from the lease on it is due again. Other keys, kinds and clocks may do anything.
   */
  lemma {:induction false} HeldUntilLease(h: Handlers, s: Sys, es: seq<Event>, r: nat)
    requires HoldsAlone(s, r) && CanExec(h, s, es) && Undisturbed(es, s.runs[r].key, r, s.runs[r].Lease())
    ensures Holds(Exec(h, s, es).store, s.runs[r].key, s.runs[r].Lease())
    ensures forall at :: at >= s.runs[r].Lease() ==> s.runs[r].key in DueKeys(Exec(h, s, es).store, at)
    ensures forall i | 0 <= i < |es| && es[i].Claim? :: s.runs[r].key !in es[i].ids
    decreases |es|
  {
    if es != [] {
      StepKeepsHeld(h, s, es[0], r);
      HeldUntilLease(h, Step(h, s, es[0]), es[1..], r);
      forall i | 0 <= i < |es| && es[i].Claim? ensures s.runs[r].key !in es[i].ids {
        if i > 0 { assert es[i] == es[1..][i - 1]; }
      }
    }
  }

  /** The same in claim time, for a job claimed at `at`: hidden for the minute of its lease, due again after it. */
  lemma HiddenForAMinute(h: Handlers, s: Sys, es: seq<Event>, r: nat)
    requires HoldsAlone(s, r) && CanExec(h, s, es) && LeftAlone(es, s.runs[r].key, r, s.runs[r].at + 59_999.5)
    ensures forall i | 0 <= i < |es| && es[i].Claim? :: s.runs[r].key !in es[i].ids
    ensures forall now :: now <= s.runs[r].at + 59_999.5 ==> s.runs[r].key !in DueKeys(Exec(h, s, es).store, now)
    ensures forall now :: now >= s.runs[r].at + 60_000.5 ==> s.runs[r].key in DueKeys(Exec(h, s, es).store, now)
  {
    LeaseLength(s.runs[r].at, LEASE_MS);
    assert Undisturbed(es, s.runs[r].key, r, s.runs[r].Lease());
    HeldUntilLease(h, s, es, r);
  }

  /** Nothing in `es` re-schedules or cancels `k`, or ends run `r`, and no clock of a claim is past `last`. */
  ghost predicate LeftAlone(es: seq<Event>, k: Key, r: nat, last: real) {
    forall i | 0 <= i < |es| ::
      match es[i]
      case Schedule(key, _, _) => key != k
      case Cancel(key) => key != k
      case Claim(at, _) => at <= last
      case End(q, _) => q != r
      case Crash(_) => true
  }

  // ------------------------------------------------------------------------------------------- no job is lost

  ghost predicate KeysAgree(s: Store) { s.due.Keys == s.data.Keys }

  /** The only ways out of the store: cancelled, or finished by a run that holds the key's current lease and is done with it. */
  ghost predicate Removes(h: Handlers, s: Sys, e: Event, k: Key) {
    match e
    case Cancel(key) => key == k
    case End(r, threw) =>
      && r in s.live && r < |s.runs| && s.runs[r].key == k && Holds(s.store, k, s.runs[r].Lease())
      && var kind := ParseJobKey(k).kind; (kind !in h || !threw || s.runs[r].data.a + 1 >= h[kind].maxAttempts)
    case _ => false
  }

  lemma {:induction false} ReachableKeysAgree(h: Handlers, s: Sys, es: seq<Event>)
    requires KeysAgree(s.store) && CanExec(h, s, es)
    ensures KeysAgree(Exec(h, s, es).store)
    decreases |es|
  {
    if es != [] {
      assert KeysAgree(Step(h, s, es[0]).store);
      ReachableKeysAgree(h, Step(h, s, es[0]), es[1..]);
    }
  }

  /** A step drops a scheduled key exactly when it removes it. */
  lemma StepDropsIffRemoves(h: Handlers, s: Sys, e: Event, k: Key)
    requires Enabled(s, e) && k in s.store.due
    ensures k !in Step(h, s, e).store.due <==> Removes(h, s, e, k)
  {
  }

  /** Over every interleaving, crashes included: a scheduled key that is gone was removed by one of its steps. */
  lemma {:induction false} NoJobIsLost(h: Handlers, s: Sys, es: seq<Event>, k: Key) returns (i: nat)
    requires CanExec(h, s, es) && k in s.store.due && k !in Exec(h, s, es).store.due
    ensures i < |es| && k in Exec(h, s, es[..i]).store.due && Removes(h, Exec(h, s, es[..i]), es[i], k)
    decreases |es|
  {
    StepDropsIffRemoves(h, s, es[0], k);
    if k !in Step(h, s, es[0]).store.due {
      i := 0;
    } else {
      var j := NoJobIsLost(h, Step(h, s, es[0]), es[1..], k);
      i := j + 1;
      assert es[..i][1..] == es[1..][..j];
    }
  }

  // ----------------------------------------------------------------------------------------- failures are bounded

  predicate CountOk(h: Handlers, key: Key, a: nat) {
    a == 0 || (ParseJobKey(key).kind in h && a < h[ParseJobKey(key).kind].maxAttempts)
  }

  ghost predicate CountsOk(h: Handlers, s: Sys) {
    && (forall k | k in s.store.data :: CountOk(h, k, s.store.data[k].a))
    && (forall i | 0 <= i < |s.runs| :: CountOk(h, s.runs[i].key, s.runs[i].data.a))
  }

  /** Every stored failure count stays below its handler's `maxAttempts`, over every interleaving. */
  lemma {:induction false} FailureCountsBounded(h: Handlers, s: Sys, es: seq<Event>)
    requires CountsOk(h, s) && CanExec(h, s, es)
    ensures CountsOk(h, Exec(h, s, es))
    decreases |es|
  {
    if es != [] {
      var s' := Step(h, s, es[0]);
      if es[0].Claim? {
        forall i | 0 <= i < |s'.runs| ensures CountOk(h, s'.runs[i].key, s'.runs[i].data.a) {
          if i < |s.runs| { assert s'.runs[i] == s.runs[i]; }
        }
      }
      FailureCountsBounded(h, s', es[1..]);
    }
  }

  // ------------------------------------------------------------------------------ a job that fails every time

  /** The runs of one key, in the order they were claimed. */
  function RunsOf(rs: seq<Run>, k: Key): (q: seq<Run>)
    ensures |q| <= |rs|
  {
    if rs == [] then []
    else
      var last := rs[|rs| - 1];
      RunsOf(rs[..|rs| - 1], k) + if last.key == k then [last] else []
  }

  lemma {:induction false} RunsOfConcat(a: seq<Run>, b: seq<Run>, k: Key)
    ensures RunsOf(a + b, k) == RunsOf(a, k) + RunsOf(b, k)
  {
    if b == [] {
      assert a + b == a;
    } else {
      var init := b[..|b| - 1];
      assert (a + b)[..|a + b| - 1] == a + init;
      RunsOfConcat(a, init, k);
    }
  }

  /** A claim starts one run of each key it takes. */
  lemma {:induction false} RunsOfClaim(s: Store, ids: seq<Key>, at: real, k: Key)
    requires Distinct(ids)
    ensures RunsOf(NewRuns(s, ids, at), k) == if k in ids then [Run(k, DataOf(s, k), at)] else []
    decreases |ids|
  {
    if ids != [] {
      var init, last := ids[..|ids| - 1], ids[|ids| - 1];
      RunsOfClaim(s, init, at, k);
      assert NewRuns(s, ids, at)[..|ids| - 1] == NewRuns(s, init, at);
      assert ids == init + [last];
    }
  }

  predicate LiveRun(s: Sys, r: nat, k: Key) { r in s.live && r < |s.runs| && s.runs[r].key == k }

  ghost predicate NoneLive(s: Sys, k: Key) { forall r | r in s.live && r < |s.runs| :: s.runs[r].key != k }

  /** One step of a key that is not re-scheduled nor cancelled, never outruns its lease, never crashes and always throws. */
  ghost predicate FailsAt(s: Sys, e: Event, k: Key) {
    match e
    case Schedule(key, _, _) => key != k
    case Cancel(key) => key != k
    case Claim(_, ids) => k in ids ==> NoneLive(s, k)
    case End(r, threw) => r < |s.runs| && s.runs[r].key == k ==> threw
    case Crash(r) => r < |s.runs| ==> s.runs[r].key != k
  }

  /** The same of every step of a run; all other keys do anything in between. */
  ghost predicate AlwaysFails(h: Handlers, s: Sys, es: seq<Event>, k: Key)
    decreases |es|
  {
    es != [] ==> FailsAt(s, es[0], k) && AlwaysFails(h, Step(h, s, es[0]), es[1..], k)
  }

  /** How many runs a failing job of `k` gets: at least one, whatever its handler allows. */
  function Attempts(h: Handlers, k: Key): int
    requires ParseJobKey(k).kind in h
  {
    MaxI(1, h[ParseJobKey(k).kind].maxAttempts)
  }

  /** After the n-th failure and before the next claim: the job is due after the n-th delay, with count n, or gone. */
  ghost predicate Waiting(h: Handlers, s: Store, k: Key, past: seq<Run>, p: Payload, first: real)
    requires ParseJobKey(k).kind in h
  {
    if |past| >= Attempts(h, k) then k !in s.due
    else
      && k in s.due && k in s.data && s.data[k] == JobData(p, |past|)
      && s.due[k] ==
           if past == [] then first
           else Round(past[|past| - 1].at + RetryDelay(|past|, h[ParseJobKey(k).kind].backoffMs)) as real
  }

  /** During the n-th run: the key's last run holds it, with the payload and n - 1 failures. */
  ghost predicate Running(s: Sys, r: nat, k: Key, past: seq<Run>, p: Payload) {
    && LiveRun(s, r, k) && past != [] && s.runs[r] == past[|past| - 1] && s.runs[r].data == JobData(p, |past| - 1)
    && Holds(s.store, k, s.runs[r].Lease())
    && forall q | LiveRun(s, q, k) :: q == r
  }

  /** Where a failing job stands, having been claimed for the runs `past`. */
  ghost predicate Failing(h: Handlers, s: Sys, k: Key, past: seq<Run>, p: Payload, first: real)
    requires ParseJobKey(k).kind in h
  {
    && |past| <= Attempts(h, k)
    && (NoneLive(s, k) ==> Waiting(h, s.store, k, past, p, first))
    && (forall r | LiveRun(s, r, k) :: Running(s, r, k, past, p))
  }

  lemma ClaimedWhileFailing(h: Handlers, s: Sys, at: real, ids: seq<Key>, i: nat, past: seq<Run>, p: Payload, first: real)
    requires i < |ids| && ParseJobKey(ids[i]).kind in h && Failing(h, s, ids[i], past, p, first)
    requires Enabled(s, Claim(at, ids)) && NoneLive(s, ids[i])
    ensures ids[i] in s.store.due && s.store.due[ids[i]] <= at
    ensures Failing(h, Step(h, s, Claim(at, ids)), ids[i], past + [Run(ids[i], DataOf(s.store, ids[i]), at)], p, first)
  {
    var s', k, r := Step(h, s, Claim(at, ids)), ids[i], |s.runs| + i;
    assert k in DueKeys(s.store, at);
    assert s'.runs[r] == NewRuns(s.store, ids, at)[i];
    assert LiveRun(s', r, k);
    forall q: nat | LiveRun(s', q, k) ensures q == r { OnlyClaimIsLive(h, s, at, ids, i, q); }
    assert Running(s', r, k, past + [s'.runs[r]], p);
  }

  lemma OnlyClaimIsLive(h: Handlers, s: Sys, at: real, ids: seq<Key>, i: nat, q: nat)
    requires i < |ids| && Enabled(s, Claim(at, ids)) && NoneLive(s, ids[i]) && LiveRun(Step(h, s, Claim(at, ids)), q, ids[i])
    ensures q == |s.runs| + i
  {
    var s' := Step(h, s, Claim(at, ids));
    if q >= |s.runs| { assert s'.runs[q].key == ids[q - |s.runs|]; }
  }

  lemma OthersClaimedWhileFailing(h: Handlers, s: Sys, at: real, ids: seq<Key>, k: Key, past: seq<Run>, p: Payload, first: real)
    requires ParseJobKey(k).kind in h && Failing(h, s, k, past, p, first) && Enabled(s, Claim(at, ids)) && k !in ids
    ensures Failing(h, Step(h, s, Claim(at, ids)), k, past, p, first)
  {
    var s' := Step(h, s, Claim(at, ids));
    forall q: nat ensures LiveRun(s', q, k) <==> LiveRun(s, q, k) {
      if q < |s.runs| {
        assert s'.runs[q] == s.runs[q];
      } else if q < |s'.runs| {
        assert s'.runs[q].key == ids[q - |s.runs|];
      }
    }
    if NoneLive(s', k) {
      forall q | q in s.live && q < |s.runs| ensures s.runs[q].key != k { assert !LiveRun(s', q, k); }
    }
    forall r: nat | LiveRun(s', r, k) ensures Running(s', r, k, past, p) { assert Running(s, r, k, past, p); }
  }

  lemma ClaimWhileFailing(h: Handlers, s: Sys, at: real, ids: seq<Key>, k: Key, past: seq<Run>, p: Payload, first: real) returns (past': seq<Run>)
    requires ParseJobKey(k).kind in h && Failing(h, s, k, past, p, first)
    requires Enabled(s, Claim(at, ids)) && FailsAt(s, Claim(at, ids), k)
    ensures past' == past + RunsOf(NewRuns(s.store, ids, at), k) && Failing(h, Step(h, s, Claim(at, ids)), k, past', p, first)
    ensures k in ids ==> k in s.store.due && past' == past + [Run(k, DataOf(s.store, k), at)]
    ensures k !in ids ==> past' == past
  {
    RunsOfClaim(s.store, ids, at, k);
    if k in ids {
      var i :| 0 <= i < |ids| && ids[i] == k;
      ClaimedWhileFailing(h, s, at, ids, i, past, p, first);
      past' := past + [Run(k, DataOf(s.store, k), at)];
    } else {
      OthersClaimedWhileFailing(h, s, at, ids, k, past, p, first);
      past' := past;
    }
  }

  lemma StillRunning(s: Sys, s': Sys, k: Key, past: seq<Run>, p: Payload)
    requires forall r: nat | LiveRun(s, r, k) :: Running(s, r, k, past, p)
    requires s'.runs == s.runs && s'.live <= s.live
    requires forall lease :: Holds(s.store, k, lease) ==> Holds(s'.store, k, lease)
    ensures forall r: nat | LiveRun(s', r, k) :: Running(s', r, k, past, p)
  {
    forall r: nat | LiveRun(s', r, k) ensures Running(s', r, k, past, p) {
      assert Running(s, r, k, past, p);
      forall q: nat | LiveRun(s', q, k) ensures q == r { assert LiveRun(s, q, k); }
    }
  }

  lemma EndWhileFailing(h: Handlers, s: Sys, r: nat, threw: bool, k: Key, past: seq<Run>, p: Payload, first: real)
    requires ParseJobKey(k).kind in h && Failing(h, s, k, past, p, first)
    requires Enabled(s, End(r, threw)) && FailsAt(s, End(r, threw), k)
    ensures Failing(h, Step(h, s, End(r, threw)), k, past, p, first)
  {
    var s' := Step(h, s, End(r, threw));
    if s.runs[r].key == k {
      assert LiveRun(s, r, k) && Running(s, r, k, past, p);
      forall q | q in s'.live && q < |s'.runs| ensures s'.runs[q].key != k { assert !LiveRun(s, q, k); }
    } else {
      if NoneLive(s', k) {
        forall q | q in s.live && q < |s.runs| ensures s.runs[q].key != k { if q != r { assert q in s'.live; } }
      }
      StillRunning(s, s', k, past, p);
    }
  }

  lemma OtherWhileFailing(h: Handlers, s: Sys, e: Event, k: Key, past: seq<Run>, p: Payload, first: real)
    requires ParseJobKey(k).kind in h && Failing(h, s, k, past, p, first)
    requires (e.Schedule? || e.Cancel? || e.Crash?) && Enabled(s, e) && FailsAt(s, e, k)
    ensures Failing(h, Step(h, s, e), k, past, p, first)
  {
    var s' := Step(h, s, e);
    if NoneLive(s', k) {
      forall q | q in s.live && q < |s.runs| ensures s.runs[q].key != k {
        if !(e.Crash? && q == e.run) { assert q in s'.live; }
      }
    }
    StillRunning(s, s', k, past, p);
  }

  lemma StepRuns(h: Handlers, s: Sys, e: Event, k: Key, n: nat)
    requires n <= |s.runs| && Enabled(s, e)
    ensures var s' := Step(h, s, e);
            && n <= |s'.runs|
            && RunsOf(s'.runs[n..], k) == RunsOf(s.runs[n..], k) + if e.Claim? then RunsOf(NewRuns(s.store, e.ids, e.at), k) else []
  {
    if e.Claim? {
      assert Step(h, s, e).runs[n..] == s.runs[n..] + NewRuns(s.store, e.ids, e.at);
      RunsOfConcat(s.runs[n..], NewRuns(s.store, e.ids, e.at), k);
    }
  }

  lemma {:induction false} FailingGoesOn(h: Handlers, s: Sys, es: seq<Event>, k: Key, n: nat, p: Payload, first: real)
    requires ParseJobKey(k).kind in h && n <= |s.runs| && Failing(h, s, k, RunsOf(s.runs[n..], k), p, first)
    requires CanExec(h, s, es) && AlwaysFails(h, s, es, k)
    ensures var s' := Exec(h, s, es); n <= |s'.runs| && Failing(h, s', k, RunsOf(s'.runs[n..], k), p, first)
    decreases |es|
  {
    if es != [] {
      var past := RunsOf(s.runs[n..], k);
      StepRuns(h, s, es[0], k, n);
      match es[0] {
        case Claim(at, ids) => var _ := ClaimWhileFailing(h, s, at, ids, k, past, p, first);
        case End(r, threw) => EndWhileFailing(h, s, r, threw, k, past, p, first);
        case _ => OtherWhileFailing(h, s, es[0], k, past, p, first);
      }
      FailingGoesOn(h, Step(h, s, es[0]), es[1..], k, n, p, first);
    }
  }

  /** A job just scheduled: due, no failure yet, no run of it live. */
  ghost predicate Fresh(s: Sys, k: Key) {
    NoneLive(s, k) && k in s.store.due && k in s.store.data && s.store.data[k].a == 0
  }

  /**
   * Over every interleaving with all other keys, a job that always fails is claimed at most `maxAttempts` times (once
   * when that is less than 1), and between its runs it is gone exactly when it has been claimed that often. Until then
   * it keeps its payload, counts its n failures and is due after the n-th delay from its last run.
   */
  lemma FailsExactlyMaxAttempts(h: Handlers, s: Sys, es: seq<Event>, k: Key)
    requires ParseJobKey(k).kind in h && Fresh(s, k) && CanExec(h, s, es) && AlwaysFails(h, s, es, k)
    ensures var s' := Exec(h, s, es);
            && |s.runs| <= |s'.runs|
            && var past := RunsOf(s'.runs[|s.runs|..], k); var n := |past|;
               && n <= Attempts(h, k)
               && (NoneLive(s', k) ==>
                    && (k !in s'.store.due <==> n == Attempts(h, k))
                    && (0 < n < Attempts(h, k) ==>
                         && k in s'.store.data && s'.store.data[k] == JobData(s.store.data[k].p, n)
                         && s'.store.due[k] == Round(past[n - 1].at + RetryDelay(n, h[ParseJobKey(k).kind].backoffMs)) as real))
  {
    assert s.runs[|s.runs|..] == [];
    FailingGoesOn(h, s, es, k, |s.runs|, s.store.data[k].p, s.store.due[k]);
  }

  // ------------------------------------------------------------------------------------------ punctual retries

  /** Every claim of the key is made the moment it is due. */
  ghost predicate Punctual(h: Handlers, s: Sys, es: seq<Event>, k: Key)
    decreases |es|
  {
    es != [] ==>
      && (es[0].Claim? && k in es[0].ids && k in s.store.due ==> es[0].at == s.store.due[k])
      && Punctual(h, Step(h, s, es[0]), es[1..], k)
  }

  /** The time of the n-th run of a job that fails punctually, its back-off a whole number of milliseconds. */
  function RunTime(first: int, backoff: nat, n: nat): int
    requires n >= 1
  {
    first + backoff * (Pow2(n - 1) - 1)
  }

  lemma NextRunTime(first: int, backoff: nat, n: nat)
    requires n >= 1
    ensures Round(RunTime(first, backoff, n) as real + RetryDelay(n, backoff as real)) == RunTime(first, backoff, n + 1)
  {
    var p := Pow2(n - 1);
    assert Pow2(n) == 2 * p;
    assert backoff * (p - 1) + backoff * p == backoff * (2 * p - 1);
    assert backoff as real * p as real == (backoff * p) as real;
    assert RetryDelay(n, backoff as real) == (backoff * p) as real;
    var t := RunTime(first, backoff, n + 1);
    assert (t as real + 0.5).Floor == t;
  }

  ghost predicate OnTime(past: seq<Run>, first: int, backoff: nat) {
    forall i | 0 <= i < |past| :: past[i].at == RunTime(first, backoff, i + 1) as real
  }

  lemma ClaimOnTime(h: Handlers, s: Sys, at: real, k: Key, past: seq<Run>, p: Payload, first: int, backoff: nat)
    requires ParseJobKey(k).kind in h && h[ParseJobKey(k).kind].backoffMs == backoff as real
    requires Waiting(h, s.store, k, past, p, first as real) && k in s.store.due && at == s.store.due[k] && OnTime(past, first, backoff)
    ensures OnTime(past + [Run(k, DataOf(s.store, k), at)], first, backoff)
  {
    if past != [] { NextRunTime(first, backoff, |past|); }
  }

  lemma {:induction false} OnTimeGoesOn(h: Handlers, s: Sys, es: seq<Event>, k: Key, n: nat, p: Payload, first: int, backoff: nat)
    requires ParseJobKey(k).kind in h && n <= |s.runs| && Failing(h, s, k, RunsOf(s.runs[n..], k), p, first as real)
    requires h[ParseJobKey(k).kind].backoffMs == backoff as real && OnTime(RunsOf(s.runs[n..], k), first, backoff)
    requires CanExec(h, s, es) && AlwaysFails(h, s, es, k) && Punctual(h, s, es, k)
    ensures var s' := Exec(h, s, es); n <= |s'.runs| && OnTime(RunsOf(s'.runs[n..], k), first, backoff)
    decreases |es|
  {
    if es != [] {
      var past := RunsOf(s.runs[n..], k);
      StepRuns(h, s, es[0], k, n);
      match es[0] {
        case Claim(at, ids) =>
          RunsOfClaim(s.store, ids, at, k);
          var past' := ClaimWhileFailing(h, s, at, ids, k, past, p, first as real);
          if k in ids { ClaimOnTime(h, s, at, k, past, p, first, backoff); }
        case End(r, threw) => EndWhileFailing(h, s, r, threw, k, past, p, first as real);
        case _ => OtherWhileFailing(h, s, es[0], k, past, p, first as real);
      }
      OnTimeGoesOn(h, Step(h, s, es[0]), es[1..], k, n, p, first, backoff);
    }
  }

  /**
   * Over every interleaving in which it is claimed the moment it is due, a failing job's n-th run starts
   * backoff x (2^(n-1) - 1) after it was first due: the delays add up.
   */
  lemma PunctualRetries(h: Handlers, s: Sys, es: seq<Event>, k: Key, first: int, backoff: nat)
    requires ParseJobKey(k).kind in h && h[ParseJobKey(k).kind].backoffMs == backoff as real
    requires Fresh(s, k) && s.store.due[k] == first as real
    requires CanExec(h, s, es) && AlwaysFails(h, s, es, k) && Punctual(h, s, es, k)
    ensures var s' := Exec(h, s, es); |s.runs| <= |s'.runs| && OnTime(RunsOf(s'.runs[|s.runs|..], k), first, backoff)
  {
    assert s.runs[|s.runs|..] == [];
    OnTimeGoesOn(h, s, es, k, |s.runs|, s.store.data[k].p, first, backoff);
  }
}
