/** Job keys, handler options and the retry back-off: the pure part of the job runner. */
module JobKeys {
  import opened JsMath

  datatype Handler = Handler(maxAttempts: int, backoffMs: real)

  /** The registered handlers, by job kind. */
  type Handlers = map<string, Handler>

  datatype ParsedKey = ParsedKey(kind: string, id: string)

  function JobKey(kind: string, id: string): string { kind + "|" + id }

  /** `indexOf('|')`, -1 when there is none. */
  function IndexOfBar(s: string): (i: int)
    ensures -1 <= i < |s|
    ensures 0 <= i ==> s[i] == '|' && '|' !in s[..i]
    ensures i == -1 ==> '|' !in s
  {
    if s == "" then -1
    else if s[0] == '|' then 0
    else
      var i := IndexOfBar(s[1..]);
      assert i >= 0 ==> s[..i + 1] == [s[0]] + s[1..][..i];
      if i < 0 then -1 else i + 1
  }

  /** Without a bar, `slice(0, -1)` drops the last character and `slice(0)` is the whole key. */
  function ParseJobKey(key: string): ParsedKey {
    var i := IndexOfBar(key);
    if i >= 0 then ParsedKey(key[..i], key[i + 1..])
    else ParsedKey(if key == "" then "" else key[..|key| - 1], key)
  }

  /** A key splits back into its kind and id exactly when the kind has no bar, whatever the id holds. */
  lemma KeyRoundTrip(kind: string, id: string)
    ensures ParseJobKey(JobKey(kind, id)) == ParsedKey(kind, id) <==> '|' !in kind
  {
    var key := JobKey(kind, id);
    assert key[|kind|] == '|';
    assert '|' in key;
    var i := IndexOfBar(key);
    if '|' !in kind {
      assert forall j | 0 <= j < |kind| :: key[j] == kind[j] != '|';
      assert forall j | 0 <= j < i :: key[..i][j] != '|';
      assert key[..i] == kind && key[i + 1..] == id;
    } else {
      assert '|' !in key[..i];
    }
  }

  /** Two (kind, id) pairs of bar-free kinds never share a key. */
  lemma KeysApart(kind: string, id: string, kind': string, id': string)
    requires '|' !in kind && '|' !in kind'
    requires JobKey(kind, id) == JobKey(kind', id')
    ensures kind == kind' && id == id'
  {
    KeyRoundTrip(kind, id);
    KeyRoundTrip(kind', id');
  }

  function RetryDelay(attempt: nat, backoffMs: real): real
    requires attempt >= 1
  {
    backoffMs * Pow2(attempt - 1) as real
  }

  function TotalDelay(retries: nat, backoffMs: real): real {
    if retries == 0 then 0.0 else TotalDelay(retries - 1, backoffMs) + RetryDelay(retries, backoffMs)
  }

  /** The delays of `n` retries add up to backoff x (2^n - 1). */
  lemma {:induction false} TotalDelayClosedForm(retries: nat, backoffMs: real)
    ensures TotalDelay(retries, backoffMs) == backoffMs * (Pow2(retries) - 1) as real
  {
    if retries > 0 {
      TotalDelayClosedForm(retries - 1, backoffMs);
      Doubles(Pow2(retries - 1), backoffMs);
    }
  }

  lemma Doubles(p: int, backoffMs: real)
    ensures backoffMs * (p - 1) as real + backoffMs * p as real == backoffMs * (2 * p - 1) as real
  {
    var x := p as real;
    assert backoffMs * (x - 1.0) + backoffMs * x == backoffMs * (2.0 * x - 1.0);
  }

  lemma RetryDelayAtLeast(attempt: nat, backoffMs: real)
    requires attempt >= 1 && backoffMs >= 0.0
    ensures RetryDelay(attempt, backoffMs) >= backoffMs
  {
    MulMono(1.0, Pow2(attempt - 1) as real, backoffMs);
  }

  /** Every retry of this handler, counted from a run that saw `now`, lies in a later millisecond. */
  ghost predicate RetriesLater(h: Handler, now: real) {
    forall n: nat | 1 <= n < h.maxAttempts :: Round(now + RetryDelay(n, h.backoffMs)) > Floor(now)
  }

  lemma FirstDelay(backoffMs: real)
    ensures RetryDelay(1, backoffMs) == backoffMs
  {
    assert Pow2(0) == 1;
  }

  lemma LaterIff(now: int, delay: real)
    ensures Round(now as real + delay) > Floor(now as real) <==> delay >= 0.5
  {
  }

  /** For a clock of whole milliseconds a handler that retries at all retries later exactly from half a millisecond up. */
  lemma RetriesLaterIff(h: Handler, now: int)
    requires h.maxAttempts >= 2
    ensures RetriesLater(h, now as real) <==> h.backoffMs >= 0.5
  {
    if h.backoffMs >= 0.5 {
      forall n: nat | 1 <= n < h.maxAttempts
        ensures Round(now as real + RetryDelay(n, h.backoffMs)) > Floor(now as real)
      {
        RetryDelayAtLeast(n, h.backoffMs);
        LaterIff(now, RetryDelay(n, h.backoffMs));
      }
    } else {
      FirstDelay(h.backoffMs);
      LaterIff(now, h.backoffMs);
      assert !(Round(now as real + RetryDelay(1, h.backoffMs)) > Floor(now as real));
    }
  }

  /** One millisecond of back-off is enough for any clock. */
  lemma RetriesLaterFromOneMs(h: Handler, now: real)
    requires h.backoffMs >= 1.0
    ensures RetriesLater(h, now)
  {
    forall n: nat | 1 <= n < h.maxAttempts
      ensures Round(now + RetryDelay(n, h.backoffMs)) > Floor(now)
    {
      RetryDelayAtLeast(n, h.backoffMs);
    }
  }
}
