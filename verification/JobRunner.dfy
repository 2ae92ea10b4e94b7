/** The runner: claims due jobs in batches, calls the handler of each job's kind, and finishes or retries it. */
module JobRunner {
  import opened JsMath
  import opened Collections
  import opened JobStore
  import opened JobKeys
  import JobProtocol

  /** What a handler may do to the store while it runs, through the runner. */
  datatype Action = ScheduleJob(key: Key, runAt: real, payload: Payload) | CancelJob(key: Key)

  /** The handlers' behaviour for a job key and attempt: whether the handler throws, and what it does before that. */
  datatype Behaviour = Behaviour(throws: (Key, nat) -> bool, effects: (Key, nat) -> seq<Action>)

  function Act(s: Store, a: Action): Store {
    match a
    case ScheduleJob(key, runAt, payload) => Add(s, key, Round(runAt) as real, JobData(payload, 0))
    case CancelJob(key) => Remove(s, key)
  }

  function ActAll(s: Store, q: seq<Action>): Store {
    if q == [] then s else Act(ActAll(s, q[..|q| - 1]), q[|q| - 1])
  }

  /** One call a run makes on the store: the handler's own calls, then finish or retry. */
  datatype Call = DoAct(action: Action) | DoFinish(key: Key, lease: real) | DoRetry(key: Key, lease: real, runAt: real, job: JobData)

  function Apply(s: Store, call: Call): Store {
    match call
    case DoAct(action) => Act(s, action)
    case DoFinish(key, lease) => Finish(s, key, lease)
    case DoRetry(key, lease, runAt, job) => Retry(s, key, lease, runAt, job)
  }

  function ApplyAll(s: Store, q: seq<Call>): Store {
    if q == [] then s else Apply(ApplyAll(s, q[..|q| - 1]), q[|q| - 1])
  }

  function ActCalls(q: seq<Action>): (calls: seq<Call>)
    ensures |calls| == |q|
  {
    seq(|q|, i requires 0 <= i < |q| => DoAct(q[i]))
  }

  /** The last call of a run. */
  function LastCall(h: Handlers, b: Behaviour, c: ClaimedJob, now: real): Call {
    var kind, attempt := ParseJobKey(c.key).kind, c.data.a + 1;
    if kind !in h || !b.throws(c.key, attempt) || attempt >= h[kind].maxAttempts then DoFinish(c.key, c.lease)
    else DoRetry(c.key, c.lease, Round(now + RetryDelay(attempt, h[kind].backoffMs)) as real, JobData(c.data.p, attempt))
  }

  /** The calls of one run, in order. */
  function CallsOf(h: Handlers, b: Behaviour, c: ClaimedJob, now: real): seq<Call> {
    if ParseJobKey(c.key).kind !in h then [LastCall(h, b, c, now)]
    else ActCalls(b.effects(c.key, c.data.a + 1)) + [LastCall(h, b, c, now)]
  }

  /** The store after one claimed job has run with nothing in between. */
  function AfterRun(h: Handlers, b: Behaviour, s: Store, c: ClaimedJob, now: real): Store {
    if ParseJobKey(c.key).kind !in h then Finish(s, c.key, c.lease)
    else
      var attempt := c.data.a + 1;
      JobProtocol.Settle(h, ActAll(s, b.effects(c.key, attempt)), JobProtocol.Run(c.key, c.data, now), b.throws(c.key, attempt))
  }

  lemma {:induction false} ActCallsAct(s: Store, q: seq<Action>)
    ensures ApplyAll(s, ActCalls(q)) == ActAll(s, q)
  {
    if q != [] {
      assert ActCalls(q)[..|q| - 1] == ActCalls(q[..|q| - 1]);
      ActCallsAct(s, q[..|q| - 1]);
    }
  }

  /** On its own, a run's calls do what the handler's calls and the protocol's settling do. */
  lemma AloneIsAfterRun(h: Handlers, b: Behaviour, s: Store, c: ClaimedJob, now: real)
    requires c.lease == LeaseFor(now, LEASE_MS)
    ensures ApplyAll(s, CallsOf(h, b, c, now)) == AfterRun(h, b, s, c, now)
  {
    var calls := CallsOf(h, b, c, now);
    var init := calls[..|calls| - 1];
    if ParseJobKey(c.key).kind in h {
      assert init == ActCalls(b.effects(c.key, c.data.a + 1));
      ActCallsAct(s, b.effects(c.key, c.data.a + 1));
    } else {
      assert init == [];
    }
  }

  // ------------------------------------------------------------------------------------- the runs of a batch, interleaved

  /** Which run made which call. */
  type Log = seq<(nat, Call)>

  function CallsIn(log: Log): (q: seq<Call>)
    ensures |q| == |log|
  {
    seq(|log|, i requires 0 <= i < |log| => log[i].1)
  }

  /** The calls of run `i`, in order. */
  function Made(log: Log, i: nat): seq<Call> {
    if log == [] then []
    else
      var last := log[|log| - 1];
      Made(log[..|log| - 1], i) + if last.0 == i then [last.1] else []
  }

  function BatchCalls(h: Handlers, b: Behaviour, claimed: seq<ClaimedJob>, now: real): (q: seq<seq<Call>>)
    ensures |q| == |claimed|
  {
    seq(|claimed|, i requires 0 <= i < |claimed| => CallsOf(h, b, claimed[i], now))
  }

  /** Every run makes its calls, in its order; between runs any order goes. */
  ghost predicate Interleaves(log: Log, runs: seq<seq<Call>>) {
    (forall e | e in log :: e.0 < |runs|) && forall i | 0 <= i < |runs| :: Made(log, i) == runs[i]
  }

  lemma {:induction false} LoggedIsMade(log: Log, j: nat)
    requires j < |log|
    ensures log[j].1 in Made(log, log[j].0)
  {
    if j < |log| - 1 { LoggedIsMade(log[..|log| - 1], j); }
  }

  /** Handlers schedule nothing that is already due at `now`. */
  ghost predicate SchedulesLater(b: Behaviour, now: real) {
    forall key, attempt, i | 0 <= i < |b.effects(key, attempt)| && b.effects(key, attempt)[i].ScheduleJob? ::
      (Round(b.effects(key, attempt)[i].runAt) as real) > now
  }

  /** Handlers touch no job but their own. */
  ghost predicate OwnJobOnly(b: Behaviour) {
    forall key, attempt, i | 0 <= i < |b.effects(key, attempt)| :: b.effects(key, attempt)[i].key == key
  }

  ghost predicate RetriesAllLater(h: Handlers, now: real) {
    forall kind | kind in h :: RetriesLater(h[kind], now)
  }

  lemma {:induction false} ActAllKeepsDue(s: Store, q: seq<Action>, now: real, key: Key)
    requires forall i | 0 <= i < |q| && q[i].ScheduleJob? :: (Round(q[i].runAt) as real) > now
    ensures DueKeys(ActAll(s, q), now) <= DueKeys(s, now)
    ensures (forall i | 0 <= i < |q| :: q[i].key == key) ==> DueKeys(ActAll(s, q), now) - {key} == DueKeys(s, now) - {key}
  {
    if q != [] { ActAllKeepsDue(s, q[..|q| - 1], now, key); }
  }

  /** Running one leased job makes nothing due; a handler that keeps to its own job makes nothing else not due. */
  lemma AfterRunKeepsDue(h: Handlers, b: Behaviour, s: Store, c: ClaimedJob, now: real)
    requires SchedulesLater(b, now) && RetriesAllLater(h, now)
    ensures DueKeys(AfterRun(h, b, s, c, now), now) <= DueKeys(s, now)
    ensures OwnJobOnly(b) ==> DueKeys(AfterRun(h, b, s, c, now), now) - {c.key} == DueKeys(s, now) - {c.key}
  {
    var kind := ParseJobKey(c.key).kind;
    if kind in h {
      var attempt := c.data.a + 1;
      ActAllKeepsDue(s, b.effects(c.key, attempt), now, c.key);
      if attempt < h[kind].maxAttempts {
        assert Round(now + RetryDelay(attempt, h[kind].backoffMs)) > Floor(now);
      }
    }
  }

  /** A call that makes nothing due at `now`. */
  predicate CallsLater(call: Call, now: real) {
    match call
    case DoAct(ScheduleJob(_, runAt, _)) => Round(runAt) as real > now
    case DoAct(CancelJob(_)) => true
    case DoFinish(_, _) => true
    case DoRetry(_, _, runAt, _) => runAt > now
  }

  function KeyOf(call: Call): Key {
    match call
    case DoAct(action) => action.key
    case DoFinish(key, _) => key
    case DoRetry(key, _, _, _) => key
  }

  /** Calls for later, in any order, make nothing due; calls on the keys `own` make nothing else not due. */
  lemma {:induction false} CallsKeepDue(s: Store, q: seq<Call>, now: real, own: set<Key>)
    requires forall call | call in q :: CallsLater(call, now)
    ensures DueKeys(ApplyAll(s, q), now) <= DueKeys(s, now)
    ensures (forall call | call in q :: KeyOf(call) in own) ==> DueKeys(ApplyAll(s, q), now) - own == DueKeys(s, now) - own
  {
    if q != [] {
      var init, last := q[..|q| - 1], q[|q| - 1];
      CallsKeepDue(s, init, now, own);
      assert last in q;
    }
  }

  lemma CallsAreLater(h: Handlers, b: Behaviour, c: ClaimedJob, now: real)
    requires SchedulesLater(b, now) && RetriesAllLater(h, now)
    ensures forall call | call in CallsOf(h, b, c, now) :: CallsLater(call, now) && (OwnJobOnly(b) ==> KeyOf(call) == c.key)
  {
    var kind, attempt := ParseJobKey(c.key).kind, c.data.a + 1;
    if kind in h && attempt < h[kind].maxAttempts {
      assert Round(now + RetryDelay(attempt, h[kind].backoffMs)) > Floor(now);
    }
    var acts := b.effects(c.key, attempt);
    forall i | 0 <= i < |acts| ensures CallsLater(ActCalls(acts)[i], now) && (OwnJobOnly(b) ==> KeyOf(ActCalls(acts)[i]) == c.key) {
      assert acts[i] == b.effects(c.key, attempt)[i];
    }
  }

  function KeySet(claimed: seq<ClaimedJob>): set<Key> { set c | c in claimed :: c.key }

  /** However the runs of a batch interleave, they make nothing due, and on their own jobs nothing else not due. */
  lemma InterleavingKeepsDue(h: Handlers, b: Behaviour, claimed: seq<ClaimedJob>, now: real, log: Log, s: Store)
    requires SchedulesLater(b, now) && RetriesAllLater(h, now) && Interleaves(log, BatchCalls(h, b, claimed, now))
    ensures DueKeys(ApplyAll(s, CallsIn(log)), now) <= DueKeys(s, now)
    ensures OwnJobOnly(b) ==> DueKeys(ApplyAll(s, CallsIn(log)), now) - KeySet(claimed) == DueKeys(s, now) - KeySet(claimed)
  {
    forall j | 0 <= j < |log|
      ensures CallsLater(CallsIn(log)[j], now) && (OwnJobOnly(b) ==> KeyOf(CallsIn(log)[j]) in KeySet(claimed))
    {
      LoggedIsMade(log, j);
      assert log[j] in log;
      CallsAreLater(h, b, claimed[log[j].0], now);
      assert log[j].1 in BatchCalls(h, b, claimed, now)[log[j].0];
      assert claimed[log[j].0] in claimed;
    }
    CallsKeepDue(s, CallsIn(log), now, KeySet(claimed));
  }

  function Left(pending: seq<seq<Call>>): nat {
    if pending == [] then 0 else Left(pending[..|pending| - 1]) + |pending[|pending| - 1]|
  }

  lemma {:induction false} OneLess(pending: seq<seq<Call>>, i: nat)
    requires i < |pending| && pending[i] != []
    ensures Left(pending[i := pending[i][1..]]) < Left(pending)
  {
    var n := |pending| - 1;
    var less := pending[i := pending[i][1..]];
    if i < n {
      OneLess(pending[..n], i);
      assert less[..n] == pending[..n][i := pending[i][1..]];
    } else {
      assert less[..n] == pending[..n];
    }
  }

  lemma LogSnoc(log: Log, i: nat, call: Call, s: Store)
    ensures forall j: nat :: Made(log + [(i, call)], j) == Made(log, j) + if j == i then [call] else []
    ensures ApplyAll(s, CallsIn(log + [(i, call)])) == Apply(ApplyAll(s, CallsIn(log)), call)
  {
    var log' := log + [(i, call)];
    assert log'[..|log'| - 1] == log;
    assert CallsIn(log')[..|log'| - 1] == CallsIn(log);
  }

  /** Half a millisecond of whole-millisecond time keeps a fresh lease out of the due range. */
  lemma LeasedIsNotDue(s: Store, ids: seq<Key>, now: real)
    ensures DueKeys(Leased(s, ids, LeaseFor(now, LEASE_MS)), now) == DueKeys(s, now) - Elems(ids)
  {
    assert LeaseFor(now, LEASE_MS) > now;
  }

  function HandlerOf(maxAttempts: Option<int>, backoffMs: Option<real>): Handler {
    Handler(if maxAttempts.Some? then maxAttempts.value else 3, if backoffMs.Some? then backoffMs.value else 5000.0)
  }

  ghost predicate OthersKept(s: Store, s': Store, key: Key) {
    && (forall k | k != key :: k in s'.due <==> k in s.due)
    && (forall k | k != key && k in s.due :: s'.due[k] == s.due[k])
    && (forall k | k != key :: k in s'.data <==> k in s.data)
    && (forall k | k != key && k in s.data :: s'.data[k] == s.data[k])
  }

  lemma NearestWhole(t: real)
    ensures IsWhole(Round(t) as real) && t - 0.5 < Round(t) as real <= t + 0.5
  {
    assert (Round(t) as real).Floor == Round(t);
  }

  /** The handler of a job that has failed `n` times is called as attempt n + 1: its calls come first, in order. */
  lemma AttemptsCountFromOne(h: Handlers, b: Behaviour, c: ClaimedJob, now: real, n: nat)
    requires ParseJobKey(c.key).kind in h && c.data.a == n
    ensures var calls, acts := CallsOf(h, b, c, now), b.effects(c.key, n + 1);
            && |calls| == |acts| + 1 && (forall i | 0 <= i < |acts| :: calls[i] == DoAct(acts[i]))
            && (calls[|acts|].DoRetry? <==> b.throws(c.key, n + 1) && n + 1 < h[ParseJobKey(c.key).kind].maxAttempts)
            && (!calls[|acts|].DoRetry? ==> calls[|acts|] == DoFinish(c.key, c.lease))
            && (calls[|acts|].DoRetry? ==> calls[|acts|].lease == c.lease && calls[|acts|].key == c.key && calls[|acts|].job == JobData(c.data.p, n + 1))
  {
  }

  class Runner {
    const store: RedisJobStore
    var handlers: Handlers

    constructor (store: RedisJobStore)
      ensures this.store == store && handlers == map[]
    {
      this.store := store;
      handlers := map[];
    }

    /** Throws (false) for a kind with a bar, which would not survive the key round trip; else the last registration wins. */
    method Register(kind: string, maxAttempts: Option<int>, backoffMs: Option<real>) returns (ok: bool)
      modifies this`handlers
      ensures ok <==> ParseJobKey(JobKey(kind, "")) == ParsedKey(kind, "")
      ensures handlers == if ok then old(handlers)[kind := HandlerOf(maxAttempts, backoffMs)] else old(handlers)
      ensures ok ==>
                && handlers[kind].maxAttempts == (match maxAttempts case Some(n) => n case None => 3)
                && handlers[kind].backoffMs == (match backoffMs case Some(ms) => ms case None => 5000.0)
    {
      KeyRoundTrip(kind, "");
      ok := '|' !in kind;
      if ok { handlers := handlers[kind := HandlerOf(maxAttempts, backoffMs)]; }
    }

    /** One entry per job, due at the nearest whole millisecond, with no failure yet; a pending run of it is replaced. */
    method Schedule(kind: string, id: string, runAt: real, payload: Payload)
      modifies store
      ensures store.State() == Act(old(store.State()), ScheduleJob(JobKey(kind, id), runAt, payload))
      ensures var key := kind + "|" + id;
              && key in store.due && IsWhole(store.due[key]) && runAt - 0.5 < store.due[key] <= runAt + 0.5
              && key in store.data && store.data[key] == JobData(payload, 0)
              && OthersKept(old(store.State()), store.State(), key)
    {
      NearestWhole(runAt);
      store.AddJob(JobKey(kind, id), Round(runAt) as real, JobData(payload, 0));
    }

    method Cancel(kind: string, id: string)
      modifies store
      ensures store.State() == Act(old(store.State()), CancelJob(JobKey(kind, id)))
      ensures var key := kind + "|" + id;
              key !in store.due && key !in store.data && OthersKept(old(store.State()), store.State(), key)
    {
      store.RemoveJob(JobKey(kind, id));
    }

    method ScheduledAt(kind: string, id: string) returns (at: Option<real>)
      ensures var key := kind + "|" + id; at == if key in store.due then Some(store.due[key]) else None
    {
      at := store.RunAt(JobKey(kind, id));
    }

    /**
     * `runOne` up to the store: the calls of one run, in order. On their own they do what the handler's calls and the
     * protocol's settling do.
     */
    method RunOne(c: ClaimedJob, now: real, b: Behaviour) returns (calls: seq<Call>)
      requires c.lease == LeaseFor(now, LEASE_MS)
      ensures calls == CallsOf(handlers, b, c, now)
      ensures forall s :: ApplyAll(s, calls) == AfterRun(handlers, b, s, c, now)
    {
      forall s ensures ApplyAll(s, CallsOf(handlers, b, c, now)) == AfterRun(handlers, b, s, c, now) { AloneIsAfterRun(handlers, b, s, c, now); }
      var kind := ParseJobKey(c.key).kind;
      if kind !in handlers { return [DoFinish(c.key, c.lease)]; }
      var handler, attempt := handlers[kind], c.data.a + 1;
      calls := ActCalls(b.effects(c.key, attempt));
      if !b.throws(c.key, attempt) || attempt >= handler.maxAttempts {
        calls := calls + [DoFinish(c.key, c.lease)];
      } else {
        calls := calls + [DoRetry(c.key, c.lease, Round(now + RetryDelay(attempt, handler.backoffMs)) as real, JobData(c.data.p, attempt))];
      }
    }

    method Perform(call: Call)
      modifies store
      ensures store.State() == Apply(old(store.State()), call)
    {
      match call {
        case DoAct(ScheduleJob(key, runAt, payload)) => store.AddJob(key, Round(runAt) as real, JobData(payload, 0));
        case DoAct(CancelJob(key)) => store.RemoveJob(key);
        case DoFinish(key, lease) => store.FinishJob(key, lease);
        case DoRetry(key, lease, runAt, job) => store.RetryJob(key, lease, runAt, job);
      }
    }

    /** All runs of a batch, started together. */
    method StartRuns(claimed: seq<ClaimedJob>, now: real, b: Behaviour) returns (runs: seq<seq<Call>>)
      requires forall c | c in claimed :: c.lease == LeaseFor(now, LEASE_MS)
      ensures runs == BatchCalls(handlers, b, claimed, now)
    {
      runs := [];
      for i := 0 to |claimed|
        invariant runs == BatchCalls(handlers, b, claimed, now)[..i]
      {
        assert claimed[i] in claimed;
        var calls := RunOne(claimed[i], now, b);
        runs := runs + [calls];
      }
    }

    /**
     * The runs of one claimed batch, at the same time: whichever run comes next makes its next call, until all are
     * done. Whatever the order, the store is what some interleaving of the runs' calls leaves.
     */
    method RunBatch(claimed: seq<ClaimedJob>, now: real, b: Behaviour) returns (ghost log: Log)
      requires forall c | c in claimed :: c.lease == LeaseFor(now, LEASE_MS)
      modifies store
      ensures Interleaves(log, BatchCalls(handlers, b, claimed, now)) && store.State() == ApplyAll(old(store.State()), CallsIn(log))
    {
      var runs := StartRuns(claimed, now, b);
      log := InAnyOrder(runs);
    }

    method InAnyOrder(runs: seq<seq<Call>>) returns (ghost log: Log)
      modifies store
      ensures Interleaves(log, runs) && store.State() == ApplyAll(old(store.State()), CallsIn(log))
    {
      ghost var s0 := store.State();
      var pending := runs;
      log := [];
      while exists i :: 0 <= i < |pending| && pending[i] != []
        invariant |pending| == |runs| && (forall e | e in log :: e.0 < |runs|)
        invariant forall i | 0 <= i < |runs| :: Made(log, i) + pending[i] == runs[i]
        invariant store.State() == ApplyAll(s0, CallsIn(log))
        decreases Left(pending)
      {
        var i :| 0 <= i < |pending| && pending[i] != [];
        OneLess(pending, i);
        LogSnoc(log, i, pending[i][0], s0);
        Perform(pending[i][0]);
        log := log + [(i, pending[i][0])];
        pending := pending[i := pending[i][1..]];
      }
    }

    /** One claim and the runs of what it took: exactly that is no longer due, or less when handlers drop other jobs. */
    method RunRound(now: real, b: Behaviour) returns (n: nat, ghost ids: seq<Key>)
      requires SchedulesLater(b, now) && RetriesAllLater(handlers, now)
      modifies store
      ensures n == |ids| && Distinct(ids) && Elems(ids) <= old(DueKeys(store.State(), now))
      ensures n < BATCH ==> DueKeys(store.State(), now) == {}
      ensures n > 0 ==> |DueKeys(store.State(), now)| < |old(DueKeys(store.State(), now))|
      ensures DueKeys(store.State(), now) <= old(DueKeys(store.State(), now)) - Elems(ids)
      ensures OwnJobOnly(b) ==> DueKeys(store.State(), now) == old(DueKeys(store.State(), now)) - Elems(ids)
    {
      ghost var s0 := store.State();
      var claimed := store.Claim(now, BATCH, LEASE_MS);
      n, ids := |claimed|, ClaimedKeys(claimed);
      LeasedIsNotDue(s0, ids, now);
      forall c | c in claimed ensures c.key !in DueKeys(store.State(), now) {
        var i :| 0 <= i < |claimed| && claimed[i] == c;
        assert ids[i] == c.key;
      }
      ghost var s1 := store.State();
      ghost var log := RunBatch(claimed, now, b);
      InterleavingKeepsDue(handlers, b, claimed, now, log, s1);
      assert DueKeys(s1, now) - KeySet(claimed) == DueKeys(s1, now);
      RoundShrinks(s0, now, ids, DueKeys(store.State(), now));
    }

    /**
     * Claims and runs everything due at `now`. `ran` lists the jobs run, in order: each at most once, each due at the
     * start. Nothing is due on return, and when handlers keep to their own jobs every due job has run.
     */
    method RunDue(now: real, b: Behaviour) returns (total: nat, ghost ran: seq<Key>)
      requires SchedulesLater(b, now) && RetriesAllLater(handlers, now)
      modifies store
      ensures DueKeys(store.State(), now) == {}
      ensures total == |ran| && Distinct(ran)
      ensures forall k | k in ran :: k in old(DueKeys(store.State(), now))
      ensures OwnJobOnly(b) ==> Elems(ran) == old(DueKeys(store.State(), now)) && total == |old(DueKeys(store.State(), now))|
    {
      total, ran := 0, [];
      ghost var all := DueKeys(store.State(), now);
      ghost var due, own := all, OwnJobOnly(b);
      var more := true;
      while more
        invariant due == DueKeys(store.State(), now) && total == |ran|
        invariant RunLog(own, ran, all, due)
        invariant !more ==> due == {}
        decreases more, |due|
      {
        var claimed, ids := RunRound(now, b);
        LogGrows(own, ran, ids, all, due, DueKeys(store.State(), now));
        total, ran, due := total + claimed, ran + ids, DueKeys(store.State(), now);
        more := !(claimed < BATCH);  // an empty batch is short too
      }
      LogIsComplete(own, ran, all);
    }
  }

  /** The jobs run so far, none twice, and the jobs still due, out of all that were. */
  ghost predicate RunLog(own: bool, ran: seq<Key>, all: set<Key>, due: set<Key>) {
    && Distinct(ran) && due <= all && Elems(ran) <= all && due !! Elems(ran)
    && (own ==> all <= due + Elems(ran))
  }

  lemma LogGrows(own: bool, ran: seq<Key>, ids: seq<Key>, all: set<Key>, due: set<Key>, due': set<Key>)
    requires RunLog(own, ran, all, due) && Distinct(ids) && Elems(ids) <= due
    requires due' <= due - Elems(ids) && (own ==> due' == due - Elems(ids))
    ensures RunLog(own, ran + ids, all, due')
  {
    RanGrows(ran, ids, due);
  }

  lemma LogIsComplete(own: bool, ran: seq<Key>, all: set<Key>)
    requires RunLog(own, ran, all, {})
    ensures Distinct(ran) && forall k | k in ran :: k in all
    ensures own ==> Elems(ran) == all && |ran| == |all|
  {
    DistinctSize(ran);
    forall k | k in ran ensures k in all { assert k in Elems(ran); }
  }

  lemma RoundShrinks(s: Store, now: real, ids: seq<Key>, after: set<Key>)
    requires IsBatch(s, now, BATCH, ids) && after <= DueKeys(s, now) - Elems(ids)
    ensures Elems(ids) <= DueKeys(s, now)
    ensures |ids| < BATCH ==> after == {}
    ensures |ids| > 0 ==> |after| < |DueKeys(s, now)|
  {
    if |ids| < BATCH { ShortBatchIsEverything(s, now, BATCH, ids); }
    if |ids| > 0 {
      assert ids[0] in DueKeys(s, now);
      SubsetSize(after, DueKeys(s, now) - {ids[0]});
    }
  }

  lemma RanGrows(ran: seq<Key>, ids: seq<Key>, due: set<Key>)
    requires Distinct(ran) && Distinct(ids)
    requires due !! Elems(ran) && Elems(ids) <= due
    ensures Distinct(ran + ids)
    ensures Elems(ran + ids) == Elems(ran) + Elems(ids)
  {
    var q := ran + ids;
    forall i, j | 0 <= i < j < |q| ensures q[i] != q[j] {
      if i < |ran| <= j {
        assert ran[i] in Elems(ran) && ids[j - |ran|] in Elems(ids);
      }
    }
  }
}
