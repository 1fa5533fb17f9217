/** The chat endpoint's fixed-window rate limiter: a process-wide table from
    a client key to the number of requests seen in the key's current window
    and the time (in milliseconds) at which that window ends. */
module RateLimit {

  /** Requests allowed per key and window. */
  const MaxRequests: nat := 20
  /** Length of a window: one hour, in milliseconds. */
  const WindowMs: nat := 60 * 60 * 1000

  datatype Window = Window(count: int, resetTime: int)

  type Table = map<string, Window>

  /** The limiter's table after one check, and whether the request may proceed. */
  datatype Verdict = Verdict(table: Table, allowed: bool)

  /** The table invariant: every stored count lies in 1..MaxRequests. */
  ghost predicate WellFormed(t: Table)
    ensures t == map[] ==> WellFormed(t)
  {
    forall k :: k in t ==> 1 <= t[k].count <= MaxRequests
  }

  /** Storing a window whose count is in range keeps the table well formed. */
  lemma WellFormedUpdate(t: Table, k: string, w: Window)
    requires WellFormed(t) && 1 <= w.count <= MaxRequests
    ensures WellFormed(t[k := w])
  {
  }

  /** The key has a record whose window has not yet passed at `now`
      (expiry is strict: at `now == resetTime` the window still applies). */
  predicate Live(t: Table, key: string, now: int)
    ensures Live(t, key, now) ==> key in t
    ensures key in t && now == t[key].resetTime ==> Live(t, key, now)
  {
    key in t && now <= t[key].resetTime
  }

  /** One call of the limiter for `key` at time `now`: start a new window,
      deny, or count the request in the live window. Whatever the branch,
      only the entry for `key` may change and no entry is removed. */
  function Step(t: Table, key: string, now: int): (v: Verdict)
    ensures v.table.Keys == t.Keys + {key}
    ensures forall k :: k in t && k != key ==> v.table[k] == t[k]
    ensures WellFormed(t) ==> WellFormed(v.table)
  {
    if !Live(t, key, now) then
      Verdict(t[key := Window(1, now + WindowMs)], true)
    else if t[key].count >= MaxRequests then
      Verdict(t, false)
    else
      Verdict(t[key := t[key].(count := t[key].count + 1)], true)
  }

  /** A key with no record, or whose window ended before `now`, is allowed
      and gets a fresh window of one request ending an hour from `now`. */
  lemma NewWindowAllows(t: Table, key: string, now: int)
    requires key !in t || now > t[key].resetTime
    ensures Step(t, key, now).allowed
    ensures Step(t, key, now).table[key] == Window(1, now + 3_600_000)
  {
  }

  /** At exactly `now == resetTime` the old window still applies: a full
      window still denies and its record is not reset. */
  lemma ExpiryIsStrict(t: Table, key: string)
    requires key in t && t[key].count >= MaxRequests
    ensures !Step(t, key, t[key].resetTime).allowed
    ensures Step(t, key, t[key].resetTime).table == t
  {
  }

  /** A live record that has used its quota denies and leaves the table as it was;
      conversely a denial happens only then. */
  lemma DenyIffQuotaUsed(t: Table, key: string, now: int)
    ensures !Step(t, key, now).allowed <==> Live(t, key, now) && t[key].count >= MaxRequests
    ensures !Step(t, key, now).allowed ==> Step(t, key, now).table == t
  {
  }

  /** A live record under quota allows, counts one more request, and keeps its reset time. */
  lemma IncrementBelowQuota(t: Table, key: string, now: int)
    requires Live(t, key, now) && t[key].count < MaxRequests
    ensures Step(t, key, now).allowed
    ensures Step(t, key, now).table[key] == Window(t[key].count + 1, t[key].resetTime)
  {
  }

  /** A run of calls for one key at the given times: the final table and
      each call's verdict, in order. */
  function Run(t: Table, key: string, nows: seq<int>): (r: (Table, seq<bool>))
    ensures |r.1| == |nows|
    ensures r.0.Keys == t.Keys + (if nows == [] then {} else {key})
    decreases |nows|
  {
    if nows == [] then
      (t, [])
    else
      var v := Step(t, key, nows[0]);
      var rest := Run(v.table, key, nows[1..]);
      (rest.0, [v.allowed] + rest.1)
  }

  /** Inside a live window that already holds `c` requests, the i-th further
      call is allowed exactly when c + i < MaxRequests, and the record ends
      with min(c + n, MaxRequests) requests and the same reset time. */
  lemma {:induction false} RunInLiveWindow(t: Table, key: string, nows: seq<int>)
    requires key in t && 1 <= t[key].count <= MaxRequests
    requires forall i :: 0 <= i < |nows| ==> nows[i] <= t[key].resetTime
    ensures forall i :: 0 <= i < |nows| ==> Run(t, key, nows).1[i] == (t[key].count + i < MaxRequests)
    ensures key in Run(t, key, nows).0
    ensures Run(t, key, nows).0[key]
         == Window(if t[key].count + |nows| < MaxRequests then t[key].count + |nows| else MaxRequests,
                   t[key].resetTime)
  {
    if nows != [] {
      var v := Step(t, key, nows[0]);
      assert Live(t, key, nows[0]);
      var tail := nows[1..];
      assert forall i :: 0 <= i < |tail| ==> tail[i] == nows[i + 1];
      RunInLiveWindow(v.table, key, tail);
      var r := Run(t, key, nows);
      assert r == (Run(v.table, key, tail).0, [v.allowed] + Run(v.table, key, tail).1);
      forall i | 0 <= i < |nows|
        ensures r.1[i] == (t[key].count + i < MaxRequests)
      {
        if i > 0 {
          assert r.1[i] == Run(v.table, key, tail).1[i - 1];
        }
      }
    }
  }

  /** From a fresh window (no record, or an expired one), calls for one key
      that all fall inside the window the first call opens are allowed for
      the first MaxRequests of them and denied from then on. */
  lemma {:induction false} QuotaPerWindow(t: Table, key: string, nows: seq<int>)
    requires |nows| > 0
    requires key !in t || nows[0] > t[key].resetTime
    requires forall i :: 0 <= i < |nows| ==> nows[i] <= nows[0] + WindowMs
    ensures forall i :: 0 <= i < |nows| ==> Run(t, key, nows).1[i] == (i < MaxRequests)
  {
    var v := Step(t, key, nows[0]);
    var tail := nows[1..];
    assert v.table[key] == Window(1, nows[0] + WindowMs);
    assert forall i :: 0 <= i < |tail| ==> tail[i] == nows[i + 1];
    RunInLiveWindow(v.table, key, tail);
    var r := Run(t, key, nows);
    assert r.1 == [true] + Run(v.table, key, tail).1;
    forall i | 0 <= i < |nows|
      ensures r.1[i] == (i < MaxRequests)
    {
      if i > 0 {
        assert r.1[i] == Run(v.table, key, tail).1[i - 1];
      }
    }
  }

  /** Twenty requests inside one fresh window are allowed and the
      twenty-first is denied. */
  lemma TwentyThenDenied(t: Table, key: string, nows: seq<int>)
    requires |nows| == 21
    requires key !in t || nows[0] > t[key].resetTime
    requires forall i :: 0 <= i < |nows| ==> nows[i] <= nows[0] + WindowMs
    ensures Run(t, key, nows).1 == seq(20, _ => true) + [false]
  {
    QuotaPerWindow(t, key, nows);
    var r := Run(t, key, nows).1;
    assert forall i :: 0 <= i < 21 ==> r[i] == (seq(20, _ => true) + [false])[i];
  }

  /** The process-wide limiter (`rateLimitMap`). Entries are never evicted. */
  class Limiter {
    var table: Table

    ghost predicate Valid()
      reads this
    {
      WellFormed(table)
    }

    /** The map starts empty when the module is loaded. */
    constructor ()
      ensures Valid() && table == map[]
    {
      table := map[];
    }

    /** `checkRateLimit(key)` with the clock reading `now`. */
    method Check(key: string, now: int) returns (allowed: bool)
      requires Valid()
      modifies this
      ensures Valid()
      ensures Verdict(table, allowed) == Step(old(table), key, now)
      ensures old(table).Keys <= table.Keys
    {
      if key !in table || now > table[key].resetTime {
        table := table[key := Window(1, now + WindowMs)];
        return true;
      }
      var record := table[key];
      if record.count >= MaxRequests {
        return false;
      }
      table := table[key := record.(count := record.count + 1)];
      allowed := true;
    }
  }
}
