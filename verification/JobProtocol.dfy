/**
 * The scheduler as a protocol: any number of API instances claim due jobs, run them and finish or retry
 * them, with every operation on the store an atomic step and any interleaving of steps. A run that is
 * still live may be arbitrarily late; a crashed one never acts again. Instances' clocks need not agree.
 */
module JobProtocol {
  import opened JsMath
  import opened JobStore
  import opened JobKeys

  /** One claim of one key, by an instance whose `runDue` saw the clock at `at`. */
  datatype Run = Run(key: Key, data: JobData, at: real)
  {
    function Lease(): real { LeaseFor(at, LEASE_MS) }
  }

  /** `runs` is every claim so far; `live` are those whose handler has neither ended nor crashed. */
  datatype Sys = Sys(store: Store, runs: seq<Run>, live: set<nat>)

  datatype Event =
    | Schedule(key: Key, runAt: real, payload: Payload)
    | Cancel(key: Key)
    | Claim(at: real, ids: seq<Key>)
    | End(run: nat, threw: bool)
    | Crash(run: nat)

  /** What `runOne` does to the store once the handler has returned or thrown. */
  function Settle(h: Handlers, s: Store, r: Run, threw: bool): Store {
    var kind := ParseJobKey(r.key).kind;
    if kind !in h then Finish(s, r.key, r.Lease())
    else
      var attempt := r.data.a + 1;
      if !threw || attempt >= h[kind].maxAttempts then Finish(s, r.key, r.Lease())
      else Retry(s, r.key, r.Lease(), Round(r.at + RetryDelay(attempt, h[kind].backoffMs)) as real, JobData(r.data.p, attempt))
  }

  function NewRuns(s: Store, ids: seq<Key>, at: real): (q: seq<Run>)
    ensures |q| == |ids|
  {
    seq(|ids|, i requires 0 <= i < |ids| => Run(ids[i], DataOf(s, ids[i]), at))
  }

  function Range(lo: nat, hi: nat): (r: set<nat>)
    ensures forall i :: i in r <==> lo <= i < hi
    decreases hi - lo
  {
    if lo >= hi then {} else {lo} + Range(lo + 1, hi)
  }

  ghost predicate Enabled(s: Sys, e: Event) {
    match e
    case Schedule(_, _, _) => true
    case Cancel(_) => true
    case Claim(at, ids) => exists limit: nat :: IsBatch(s.store, at, limit, ids)
    case End(r, _) => r in s.live && r < |s.runs|
    case Crash(r) => r in s.live && r < |s.runs|
  }

  function Step(h: Handlers, s: Sys, e: Event): Sys {
    match e
    case Schedule(key, runAt, payload) => s.(store := Add(s.store, key, Round(runAt) as real, JobData(payload, 0)))
    case Cancel(key) => s.(store := Remove(s.store, key))
    case Claim(at, ids) => Sys(Leased(s.store, ids, LeaseFor(at, LEASE_MS)), s.runs + NewRuns(s.store, ids, at), s.live + Range(|s.runs|, |s.runs| + |ids|))
    case End(r, threw) =>
      if r < |s.runs| then s.(store := Settle(h, s.store, s.runs[r], threw), live := s.live - {r}) else s
    case Crash(r) => s.(live := s.live - {r})
  }

  function Exec(h: Handlers, s: Sys, es: seq<Event>): Sys
    decreases |es|
  {
    if es == [] then s else Exec(h, Step(h, s, es[0]), es[1..])
  }

  ghost predicate CanExec(h: Handlers, s: Sys, es: seq<Event>)
    decreases |es|
  {
    es != [] ==> Enabled(s, es[0]) && CanExec(h, Step(h, s, es[0]), es[1..])
  }

  const Init: Sys := Sys(Store(map[], map[]), [], {})

  /** Every registered handler that retries does so in a later millisecond (see JobKeys.RetriesLaterFromOneMs). */
  ghost predicate BackoffOk(h: Handlers) {
    forall kind | kind in h :: h[kind].backoffMs >= 1.0
  }

  // ------------------------------------------------------------------ the simple form: an owner per entry

  /** A job entry that remembers which run holds it, instead of encoding that in the score. */
  datatype Entry = Entry(score: real, data: JobData, holder: Option<nat>)

  datatype Owned = Owned(entries: map<Key, Entry>, runs: seq<Run>, live: set<nat>)

  predicate HeldBy(a: Owned, r: nat) {
    r < |a.runs| && a.runs[r].key in a.entries && a.entries[a.runs[r].key].holder == Some(r)
  }

  function OwnedSettle(h: Handlers, a: Owned, r: nat, threw: bool): map<Key, Entry>
    requires r < |a.runs|
  {
    var run := a.runs[r];
    var kind := ParseJobKey(run.key).kind;
    var attempt := run.data.a + 1;
    if !HeldBy(a, r) then a.entries
    else if kind in h && threw && attempt < h[kind].maxAttempts then
      a.entries[run.key := Entry(Round(run.at + RetryDelay(attempt, h[kind].backoffMs)) as real, JobData(run.data.p, attempt), None)]
    else a.entries - {run.key}
  }

  /** The run that a claim of `ids` starts for `key`. */
  function RunIdFor(a: Owned, ids: seq<Key>, key: Key): nat {
    |a.runs| + IndexIn(ids, key)
  }

  function IndexIn(ids: seq<Key>, key: Key): (i: nat)
    ensures key in ids ==> i < |ids| && ids[i] == key
  {
    if ids == [] || ids[0] == key then 0 else 1 + IndexIn(ids[1..], key)
  }

  function OwnedStep(h: Handlers, a: Owned, e: Event): Owned {
    match e
    case Schedule(key, runAt, payload) => a.(entries := a.entries[key := Entry(Round(runAt) as real, JobData(payload, 0), None)])
    case Cancel(key) => a.(entries := a.entries - {key})
    case Claim(at, ids) =>
      Owned(map k | k in a.entries :: if k in ids then a.entries[k].(score := LeaseFor(at, LEASE_MS), holder := Some(RunIdFor(a, ids, k))) else a.entries[k],
            a.runs + NewRuns(StoreOf(a), ids, at), a.live + Range(|a.runs|, |a.runs| + |ids|))
    case End(r, threw) => if r < |a.runs| then a.(entries := OwnedSettle(h, a, r, threw), live := a.live - {r}) else a
    case Crash(r) => a.(live := a.live - {r})
  }

  function OwnedExec(h: Handlers, a: Owned, es: seq<Event>): Owned
    decreases |es|
  {
    if es == [] then a else OwnedExec(h, OwnedStep(h, a, es[0]), es[1..])
  }

  function StoreOf(a: Owned): Store {
    Store(map k | k in a.entries :: a.entries[k].score, map k | k in a.entries :: a.entries[k].data)
  }

  /** The Redis state an owner-keeping state stands for. */
  function Abs(a: Owned): Sys { Sys(StoreOf(a), a.runs, a.live) }

  /** A live run's lease is on its entry exactly when the run owns the entry. */
  ghost predicate Fenced(a: Owned) {
    && (forall r | r in a.live :: RunFenced(a, r))
    && (forall k | k in a.entries && a.entries[k].holder.Some? :: a.entries[k].holder.value < |a.runs|)
  }

  /** No live run of a claimed key was itself claimed in the same floored millisecond. */
  ghost predicate Apart(runs: seq<Run>, live: set<nat>, at: real, ids: seq<Key>) {
    forall r | r in live && r < |runs| && runs[r].key in ids :: Floor(runs[r].at) != Floor(at)
  }

  const InitOwned: Owned := Owned(map[], [], {})

  lemma SettleRefines(h: Handlers, a: Owned, r: nat, threw: bool)
    requires Fenced(a) && r in a.live
    ensures StoreOf(a.(entries := OwnedSettle(h, a, r, threw))) == Settle(h, StoreOf(a), a.runs[r], threw)
  {
    var s, s' := Settle(h, StoreOf(a), a.runs[r], threw), StoreOf(a.(entries := OwnedSettle(h, a, r, threw)));
    assert s.due == s'.due && s.data == s'.data;
  }

  lemma WholeIsNoLease(n: int, at: real)
    ensures n as real != LeaseFor(at, LEASE_MS)
  {
    assert (n as real).Floor == n;
    assert LeaseFor(at, LEASE_MS) == (Floor(at) + LEASE_MS) as real + 0.5;
  }

  lemma EndKeepsFence(h: Handlers, a: Owned, r: nat, threw: bool)
    requires Fenced(a) && r in a.live
    ensures Fenced(OwnedStep(h, a, End(r, threw)))
  {
    var a' := OwnedStep(h, a, End(r, threw));
    forall q | q in a'.live
      ensures Holds(StoreOf(a'), a.runs[q].key, a.runs[q].Lease()) <==> HeldBy(a', q)
    {
      var k := a.runs[q].key;
      if k in a'.entries && a'.entries[k] != a.entries[k] {
        var attempt := a.runs[r].data.a + 1;
        WholeIsNoLease(Round(a.runs[r].at + RetryDelay(attempt, h[ParseJobKey(k).kind].backoffMs)), a.runs[q].at);
      }
    }
  }

  lemma ScheduleKeepsFence(h: Handlers, a: Owned, key: Key, runAt: real, payload: Payload)
    requires Fenced(a)
    ensures Fenced(OwnedStep(h, a, Schedule(key, runAt, payload)))
  {
    forall q | q in a.live { WholeIsNoLease(Round(runAt), a.runs[q].at); }
  }

  lemma ClaimAndOldRun(h: Handlers, a: Owned, at: real, ids: seq<Key>, q: nat)
    requires Fenced(a) && Enabled(Abs(a), Claim(at, ids)) && q in a.live
    ensures var a' := OwnedStep(h, a, Claim(at, ids));
            && q < |a'.runs| && a'.runs[q] == a.runs[q]
            && (HeldBy(a', q) <==> a.runs[q].key !in ids && HeldBy(a, q))
            && (Holds(StoreOf(a'), a'.runs[q].key, a'.runs[q].Lease()) <==>
                  if a.runs[q].key in ids then Floor(a.runs[q].at) == Floor(at) else HeldBy(a, q))
  {
    if i: int :| 0 <= i < |ids| && ids[i] == a.runs[q].key {
      assert ids[i] in DueKeys(StoreOf(a), at);
    }
  }

  lemma ClaimAndNewRun(h: Handlers, a: Owned, at: real, ids: seq<Key>, q: nat)
    requires Enabled(Abs(a), Claim(at, ids)) && |a.runs| <= q < |a.runs| + |ids|
    ensures var a' := OwnedStep(h, a, Claim(at, ids));
            q < |a'.runs| && HeldBy(a', q) && Holds(StoreOf(a'), a'.runs[q].key, a'.runs[q].Lease())
  {
    var i := q - |a.runs|;
    assert ids[i] in DueKeys(StoreOf(a), at);
    assert ids[IndexIn(ids, ids[i])] == ids[i];
    assert IndexIn(ids, ids[i]) == i;
  }

  ghost predicate RunFenced(a: Owned, r: nat) {
    r < |a.runs| && (Holds(StoreOf(a), a.runs[r].key, a.runs[r].Lease()) <==> HeldBy(a, r))
  }

  lemma ClaimFencesOldRunIff(h: Handlers, a: Owned, at: real, ids: seq<Key>, q: nat)
    requires Fenced(a) && Enabled(Abs(a), Claim(at, ids)) && q in a.live
    ensures RunFenced(OwnedStep(h, a, Claim(at, ids)), q) <==> (a.runs[q].key in ids ==> Floor(a.runs[q].at) != Floor(at))
  {
    ClaimAndOldRun(h, a, at, ids, q);
    assert RunFenced(a, q);
  }

  /** A claim keeps the fence exactly when no live run of a claimed key was claimed in the same floored millisecond. */
  lemma ClaimKeepsFenceIff(h: Handlers, a: Owned, at: real, ids: seq<Key>)
    requires Fenced(a) && Enabled(Abs(a), Claim(at, ids))
    ensures Fenced(OwnedStep(h, a, Claim(at, ids))) <==> Apart(a.runs, a.live, at, ids)
  {
    var a' := OwnedStep(h, a, Claim(at, ids));
    forall q | q in a.live { ClaimFencesOldRunIff(h, a, at, ids, q); }
    forall q | q in Range(|a.runs|, |a.runs| + |ids|) ensures RunFenced(a', q) { ClaimAndNewRun(h, a, at, ids, q); }
    assert a'.live == a.live + Range(|a.runs|, |a.runs| + |ids|);
  }

  /** Every claim of the run stays clear of the live runs of the keys it takes. */
  ghost predicate ClaimsApart(h: Handlers, a: Owned, es: seq<Event>)
    decreases |es|
  {
    es != [] ==>
      && (es[0].Claim? ==> Apart(a.runs, a.live, es[0].at, es[0].ids))
      && ClaimsApart(h, OwnedStep(h, a, es[0]), es[1..])
  }

  lemma ClaimRefines(h: Handlers, a: Owned, at: real, ids: seq<Key>)
    ensures Abs(OwnedStep(h, a, Claim(at, ids))) == Step(h, Abs(a), Claim(at, ids))
  {
    var a', s' := OwnedStep(h, a, Claim(at, ids)), Step(h, Abs(a), Claim(at, ids));
    assert StoreOf(a').due == s'.store.due && StoreOf(a').data == s'.store.data;
  }

  lemma ScheduleRefines(h: Handlers, a: Owned, key: Key, runAt: real, payload: Payload)
    ensures Abs(OwnedStep(h, a, Schedule(key, runAt, payload))) == Step(h, Abs(a), Schedule(key, runAt, payload))
  {
    var a', s' := OwnedStep(h, a, Schedule(key, runAt, payload)), Step(h, Abs(a), Schedule(key, runAt, payload));
    assert StoreOf(a').due == s'.store.due && StoreOf(a').data == s'.store.data;
  }

  lemma CancelRefines(h: Handlers, a: Owned, key: Key)
    requires Fenced(a)
    ensures Fenced(OwnedStep(h, a, Cancel(key))) && Abs(OwnedStep(h, a, Cancel(key))) == Step(h, Abs(a), Cancel(key))
  {
    var a', s' := OwnedStep(h, a, Cancel(key)), Step(h, Abs(a), Cancel(key));
    assert StoreOf(a').due == s'.store.due && StoreOf(a').data == s'.store.data;
  }

  lemma StepRefines(h: Handlers, a: Owned, e: Event)
    requires Fenced(a) && Enabled(Abs(a), e)
    requires e.Claim? ==> Apart(a.runs, a.live, e.at, e.ids)
    ensures Fenced(OwnedStep(h, a, e)) && Abs(OwnedStep(h, a, e)) == Step(h, Abs(a), e)
  {
    match e
    case Schedule(key, runAt, payload) =>
      ScheduleKeepsFence(h, a, key, runAt, payload);
      ScheduleRefines(h, a, key, runAt, payload);
    case Cancel(key) => CancelRefines(h, a, key);
    case Claim(at, ids) =>
      ClaimKeepsFenceIff(h, a, at, ids);
      ClaimRefines(h, a, at, ids);
    case End(r, threw) =>
      EndKeepsFence(h, a, r, threw);
      SettleRefines(h, a, r, threw);
    case Crash(r) =>
  }

  /**
   * Fencing: comparing scores with leases does, over every interleaving, what remembering the owner of each
   * entry would do.
   */
  lemma {:induction false} LeasesRefineOwners(h: Handlers, a: Owned, es: seq<Event>)
    requires Fenced(a) && CanExec(h, Abs(a), es) && ClaimsApart(h, a, es)
    ensures Fenced(OwnedExec(h, a, es)) && Abs(OwnedExec(h, a, es)) == Exec(h, Abs(a), es)
    decreases |es|
  {
    if es != [] {
      StepRefines(h, a, es[0]);
      LeasesRefineOwners(h, OwnedStep(h, a, es[0]), es[1..]);
    }
  }
}
