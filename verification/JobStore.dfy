/**
 * The durable job store: a sorted set `jobs:due` (key to run time) and a hash `jobs:data`
 * (key to payload and failure count), with the three scripts that claim, finish and retry.
 */
module JobStore {
  import opened JsMath
  import opened Collections

  type Key = string

  datatype Payload = Null | Json(text: string)

  /** `p` is the payload, `a` how many runs have failed. */
  datatype JobData = JobData(p: Payload, a: nat)

  datatype ClaimedJob = ClaimedJob(key: Key, data: JobData, lease: real)

  /** The two Redis structures as one value. */
  datatype Store = Store(due: map<Key, real>, data: map<Key, JobData>)

  const LEASE_MS: nat := 60_000
  const BATCH: nat := 100

  /** Half a millisecond off the whole-millisecond run times. */
  function LeaseFor(now: real, leaseMs: nat): real {
    Floor(now) as real + leaseMs as real + 0.5
  }

  /** The lease is `leaseMs` after the claim, to the nearest half millisecond: these two fix it. */
  lemma LeaseLength(now: real, leaseMs: nat)
    ensures var lease := LeaseFor(now, leaseMs);
            && now + leaseMs as real - 0.5 < lease <= now + leaseMs as real + 0.5
            && lease - lease.Floor as real == 0.5
  {
    var n := now.Floor + leaseMs;
    assert (n as real + 0.5).Floor == n;
  }

  predicate IsLease(score: real) { score - score.Floor as real == 0.5 }

  predicate IsWhole(score: real) { score - score.Floor as real == 0.0 }

  /** What a missing or unreadable hash entry reads as. */
  function DataOf(s: Store, key: Key): JobData {
    if key in s.data then s.data[key] else JobData(Null, 0)
  }

  function Add(s: Store, key: Key, runAt: real, data: JobData): Store {
    Store(s.due[key := runAt], s.data[key := data])
  }

  function Remove(s: Store, key: Key): Store {
    Store(s.due - {key}, s.data - {key})
  }

  predicate Holds(s: Store, key: Key, lease: real) {
    key in s.due && s.due[key] == lease
  }

  function Finish(s: Store, key: Key, lease: real): Store {
    if Holds(s, key, lease) then Remove(s, key) else s
  }

  function Retry(s: Store, key: Key, lease: real, runAt: real, data: JobData): Store {
    if Holds(s, key, lease) then Add(s, key, runAt, data) else s
  }

  function DueKeys(s: Store, now: real): set<Key> {
    set k | k in s.due && s.due[k] <= now
  }

  /**
   * What `ZRANGEBYSCORE -inf now LIMIT 0 limit` may return: the first `limit` due keys by score.
   * The order among equal scores is left open.
   */
  ghost predicate IsBatch(s: Store, now: real, limit: nat, ids: seq<Key>) {
    && Distinct(ids)
    && (forall i | 0 <= i < |ids| :: ids[i] in DueKeys(s, now))
    && |ids| == MinI(limit, |DueKeys(s, now)|)
    && (forall i, j | 0 <= i < j < |ids| :: s.due[ids[i]] <= s.due[ids[j]])
    && (forall k, i | k in DueKeys(s, now) && k !in ids && 0 <= i < |ids| :: s.due[ids[i]] <= s.due[k])
  }

  /** `ids` are the least keys of `all` by score, in order, and `rest` the others. */
  ghost predicate IsPrefix(s: Store, all: set<Key>, rest: set<Key>, ids: seq<Key>) {
    && all <= s.due.Keys && rest <= all && Distinct(ids)
    && (forall k | k in all :: k in rest <==> k !in ids)
    && (forall i | 0 <= i < |ids| :: ids[i] in all)
    && (forall i, j | 0 <= i < j < |ids| :: s.due[ids[i]] <= s.due[ids[j]])
    && (forall k, i | k in rest && 0 <= i < |ids| :: s.due[ids[i]] <= s.due[k])
  }

  lemma PrefixGrows(s: Store, all: set<Key>, rest: set<Key>, ids: seq<Key>, k: Key)
    requires IsPrefix(s, all, rest, ids) && k in rest && forall k' | k' in rest :: s.due[k] <= s.due[k']
    ensures IsPrefix(s, all, rest - {k}, ids + [k])
  {
  }

  lemma PrefixIsBatch(s: Store, now: real, limit: nat, rest: set<Key>, ids: seq<Key>)
    requires IsPrefix(s, DueKeys(s, now), rest, ids) && |ids| <= limit && (|ids| < limit ==> rest == {})
    ensures IsBatch(s, now, limit, ids)
  {
    DistinctSize(ids);
    assert Elems(ids) == DueKeys(s, now) - rest;
    SubsetSize(Elems(ids), DueKeys(s, now));
  }

  /** The claimed keys re-scored to the lease. */
  function Leased(s: Store, ids: seq<Key>, lease: real): Store {
    s.(due := map k | k in s.due :: if k in ids then lease else s.due[k])
  }

  function ClaimedKeys(jobs: seq<ClaimedJob>): (ids: seq<Key>)
    ensures |ids| == |jobs|
    ensures forall i | 0 <= i < |jobs| :: ids[i] == jobs[i].key
  {
    seq(|jobs|, i requires 0 <= i < |jobs| => jobs[i].key)
  }

  /** A batch shorter than its limit is everything that was due. */
  lemma ShortBatchIsEverything(s: Store, now: real, limit: nat, ids: seq<Key>)
    requires IsBatch(s, now, limit, ids) && |ids| < limit
    ensures Elems(ids) == DueKeys(s, now)
  {
    var got := Elems(ids);
    DistinctSize(ids);
    SubsetOfSameSize(got, DueKeys(s, now));
  }

  /** The store over Redis, updated in place. */
  class RedisJobStore {
    var due: map<Key, real>
    var data: map<Key, JobData>

    function State(): Store
      reads this
    {
      Store(due, data)
    }

    constructor ()
      ensures State() == Store(map[], map[])
    {
      due, data := map[], map[];
    }

    method AddJob(key: Key, runAt: real, job: JobData)
      modifies this
      ensures State() == Add(old(State()), key, runAt, job)
      ensures due == old(due)[key := runAt] && data == old(data)[key := job]
    {
      due := due[key := runAt];
      data := data[key := job];
    }

    method RemoveJob(key: Key)
      modifies this
      ensures State() == Remove(old(State()), key)
      ensures due == old(due) - {key} && data == old(data) - {key}
    {
      due := due - {key};
      data := data - {key};
    }

    method RunAt(key: Key) returns (at: Option<real>)
      ensures at.Some? <==> key in due
      ensures at.Some? ==> at.value == due[key]
    {
      at := if key in due then Some(due[key]) else None;
    }

    /** The sorted-set range the CLAIM script starts from: the least scores first. */
    method ZRangeByScore(now: real, limit: nat) returns (ids: seq<Key>)
      ensures IsBatch(State(), now, limit, ids)
    {
      ids := [];
      var rest := set k | k in due && due[k] <= now;
      ghost var s, all := State(), rest;
      while |ids| < limit && rest != {}
        invariant |ids| <= limit && IsPrefix(s, all, rest, ids)
        decreases rest
      {
        var k := Least(rest);
        PrefixGrows(s, all, rest, ids, k);
        ids := ids + [k];
        rest := rest - {k};
      }
      PrefixIsBatch(s, now, limit, rest, ids);
    }

    method Least(keys: set<Key>) returns (best: Key)
      requires keys != {} && keys <= due.Keys
      ensures best in keys
      ensures forall k | k in keys :: due[best] <= due[k]
    {
      best :| best in keys;
      var rest := keys - {best};
      while rest != {}
        invariant rest <= keys && best in keys
        invariant forall k | k in keys - rest :: due[best] <= due[k]
        decreases rest
      {
        var k :| k in rest;
        if due[k] < due[best] { best := k; }
        rest := rest - {k};
      }
    }

    method Claim(now: real, limit: nat, leaseMs: nat) returns (out: seq<ClaimedJob>)
      modifies this`due
      ensures IsBatch(old(State()), now, limit, ClaimedKeys(out))
      ensures State() == Leased(old(State()), ClaimedKeys(out), LeaseFor(now, leaseMs))
      ensures forall c | c in out :: c.lease == LeaseFor(now, leaseMs) && c.data == DataOf(old(State()), c.key)
      ensures forall c | c in out ::
                && c.key in due && due[c.key] == c.lease && now + leaseMs as real - 0.5 < c.lease <= now + leaseMs as real + 0.5
                && c.data == if c.key in data then data[c.key] else JobData(Null, 0)
    {
      var lease := LeaseFor(now, leaseMs);
      LeaseLength(now, leaseMs);
      var ids := ZRangeByScore(now, limit);
      out := [];
      for i := 0 to |ids|
        invariant |out| == i && ClaimedKeys(out) == ids[..i]
        invariant State() == Leased(old(State()), ids[..i], lease)
        invariant forall c | c in out :: c.lease == lease && c.data == DataOf(old(State()), c.key)
        invariant forall c | c in out :: c.key in due && due[c.key] == lease
      {
        var key := ids[i];
        assert key in DueKeys(old(State()), now);
        due := due[key := lease];
        out := out + [ClaimedJob(key, if key in data then data[key] else JobData(Null, 0), lease)];
        assert ids[..i + 1] == ids[..i] + [key];
      }
      assert ids[..|ids|] == ids;
    }

    method FinishJob(key: Key, lease: real)
      modifies this
      ensures State() == Finish(old(State()), key, lease)
      ensures if (key, lease) in old(due).Items then due == old(due) - {key} && data == old(data) - {key} else due == old(due) && data == old(data)
    {
      if key in due && due[key] == lease {
        due := due - {key};
        data := data - {key};
      }
    }

    method RetryJob(key: Key, lease: real, runAt: real, job: JobData)
      modifies this
      ensures State() == Retry(old(State()), key, lease, runAt, job)
      ensures if (key, lease) in old(due).Items then due == old(due)[key := runAt] && data == old(data)[key := job] else due == old(due) && data == old(data)
    {
      if key in due && due[key] == lease {
        due := due[key := runAt];
        data := data[key := job];
      }
    }
  }
}
