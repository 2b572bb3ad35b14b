/** The per-tenant limiter of src/omp/adapters/mcp/adapter.py against the full history of the
    calls it accepted. */
module RateLimiter {
  import opened Domain

  datatype Key = Key(tenant: string, tool: string)

  datatype Call = Call(key: Key, at: real)

  /** The instants of one key's calls, in order. */
  function TimesOf(log: seq<Call>, key: Key): seq<real>
    decreases |log|
  {
    if log == [] then []
    else
      var last := log[|log| - 1];
      if last.key == key then TimesOf(log[..|log| - 1], key) + [last.at] else TimesOf(log[..|log| - 1], key)
  }

  /** How many of these instants lie in the half-open window from `lo`, excluded, to `hi`. */
  function Count(times: seq<real>, lo: real, hi: real): nat
    decreases |times|
  {
    if times == [] then 0
    else Count(times[..|times| - 1], lo, hi) + if lo < times[|times| - 1] <= hi then 1 else 0
  }

  ghost predicate Ascending(times: seq<real>) {
    forall i, j :: 0 <= i < j < |times| ==> times[i] <= times[j]
  }

  datatype Limits = Limits(maximum: nat, window: real)

  /** Fewer than `maximum` accepted calls of this key lie in the window that ends now. */
  predicate Admits(l: Limits, log: seq<Call>, key: Key, now: real) {
    Count(TimesOf(log, key), now - l.window, now) < l.maximum
  }

  /** The accepted calls among `calls`, each decided against those accepted before it. */
  function Accepted(l: Limits, calls: seq<Call>): seq<Call>
    decreases |calls|
  {
    if calls == [] then []
    else
      var log := Accepted(l, calls[..|calls| - 1]);
      var c := calls[|calls| - 1];
      if Admits(l, log, c.key, c.at) then log + [c] else log
  }

  /** The clock never goes back. */
  ghost predicate Monotone(calls: seq<Call>) {
    forall i, j :: 0 <= i < j < |calls| ==> calls[i].at <= calls[j].at
  }

  // ---------------------------------------------------------------- no window overflows

  lemma TimesOfExtended(log: seq<Call>, c: Call, key: Key)
    ensures TimesOf(log + [c], key) == if c.key == key then TimesOf(log, key) + [c.at] else TimesOf(log, key)
  {
    assert (log + [c])[..|log|] == log;
  }

  lemma CountExtended(times: seq<real>, at: real, lo: real, hi: real)
    ensures Count(times + [at], lo, hi) == Count(times, lo, hi) + if lo < at <= hi then 1 else 0
  {
    assert (times + [at])[..|times|] == times;
  }

  lemma AcceptedExtended(l: Limits, calls: seq<Call>, c: Call)
    ensures
      var log := Accepted(l, calls);
      Accepted(l, calls + [c]) == if Admits(l, log, c.key, c.at) then log + [c] else log
  {
    assert (calls + [c])[..|calls|] == calls;
  }

  ghost predicate Until(times: seq<real>, now: real) {
    forall i :: 0 <= i < |times| ==> times[i] <= now
  }

  lemma {:induction false} AcceptedUntil(l: Limits, calls: seq<Call>, key: Key, now: real)
    requires forall i :: 0 <= i < |calls| ==> calls[i].at <= now
    ensures Until(TimesOf(Accepted(l, calls), key), now)
    decreases |calls|
  {
    if calls != [] {
      var log := Accepted(l, calls[..|calls| - 1]);
      AcceptedUntil(l, calls[..|calls| - 1], key, now);
      TimesOfExtended(log, calls[|calls| - 1], key);
    }
  }

  /** Instants up to `now` that lie in a later window of the same length lie in the one ending
      now. */
  lemma {:induction false} EarlierWindowHoldsMore(times: seq<real>, now: real, t: real, window: real)
    requires Until(times, now) && now <= t
    ensures Count(times, t - window, t) <= Count(times, now - window, now)
    decreases |times|
  {
    if times != [] {
      EarlierWindowHoldsMore(times[..|times| - 1], now, t, window);
    }
  }

  /** Whatever is called, no window of that length ever holds more than `maximum` accepted calls
      of one tenant and tool. */
  lemma {:induction false} NoWindowOverflows(l: Limits, calls: seq<Call>, key: Key, t: real)
    requires Monotone(calls)
    ensures Count(TimesOf(Accepted(l, calls), key), t - l.window, t) <= l.maximum
    decreases |calls|
  {
    NothingAccepted(l, key, t - l.window, t);
    hide Accepted, TimesOf, Count, Admits;
    if calls != [] {
      var rest, c := calls[..|calls| - 1], calls[|calls| - 1];
      assert calls == rest + [c];
      NoWindowOverflows(l, rest, key, t);
      AcceptedUntil(l, rest, key, c.at);
      OneMoreAccepted(l, rest, c, key, t);
    }
  }

  lemma NothingAccepted(l: Limits, key: Key, lo: real, hi: real)
    ensures TimesOf(Accepted(l, []), key) == [] && Count([], lo, hi) == 0
  {
  }

  lemma OneMoreAccepted(l: Limits, calls: seq<Call>, c: Call, key: Key, t: real)
    requires Count(TimesOf(Accepted(l, calls), key), t - l.window, t) <= l.maximum
    requires Until(TimesOf(Accepted(l, calls), key), c.at)
    ensures Count(TimesOf(Accepted(l, calls + [c]), key), t - l.window, t) <= l.maximum
  {
    hide Accepted, TimesOf, Count;
    var log := Accepted(l, calls);
    AcceptedExtended(l, calls, c);
    TimesOfExtended(log, c, key);
    CountExtended(TimesOf(log, key), c.at, t - l.window, t);
    if c.at <= t {
      EarlierWindowHoldsMore(TimesOf(log, key), c.at, t, l.window);
    }
  }

  // ---------------------------------------------------------------- closed windows

  /** How many of these instants lie in the closed window from `lo` to `hi`. */
  function ClosedCount(times: seq<real>, lo: real, hi: real): nat
    decreases |times|
  {
    if times == [] then 0
    else ClosedCount(times[..|times| - 1], lo, hi) + if lo <= times[|times| - 1] <= hi then 1 else 0
  }

  function CountAt(times: seq<real>, at: real): nat
    decreases |times|
  {
    if times == [] then 0
    else CountAt(times[..|times| - 1], at) + if times[|times| - 1] == at then 1 else 0
  }

  lemma {:induction false} ClosedSplits(times: seq<real>, lo: real, hi: real)
    requires lo <= hi
    ensures ClosedCount(times, lo, hi) == Count(times, lo, hi) + CountAt(times, lo)
    decreases |times|
  {
    if times != [] {
      ClosedSplits(times[..|times| - 1], lo, hi);
    }
  }

  lemma {:induction false} EdgeLiesInWindow(times: seq<real>, window: real, at: real)
    requires window > 0.0
    ensures CountAt(times, at) <= Count(times, at - window, at)
    decreases |times|
  {
    if times != [] {
      EdgeLiesInWindow(times[..|times| - 1], window, at);
    }
  }

  /** A window with its start included holds at most twice the budget; it keeps to the budget exactly
      when the calls accepted at its very start leave room for those accepted after it. */
  lemma ClosedWindowBound(l: Limits, calls: seq<Call>, key: Key, t: real)
    requires Monotone(calls) && l.window > 0.0
    ensures
      var times := TimesOf(Accepted(l, calls), key);
      && ClosedCount(times, t - l.window, t) <= 2 * l.maximum
      && (ClosedCount(times, t - l.window, t) <= l.maximum <==>
            CountAt(times, t - l.window) <= l.maximum - Count(times, t - l.window, t))
  {
    var times := TimesOf(Accepted(l, calls), key);
    NoWindowOverflows(l, calls, key, t);
    NoWindowOverflows(l, calls, key, t - l.window);
    ClosedSplits(times, t - l.window, t);
    EdgeLiesInWindow(times, l.window, t - l.window);
  }

  function Repeat(c: Call, n: nat): seq<Call> {
    seq(n, i => c)
  }

  function Instants(at: real, n: nat): seq<real> {
    seq(n, i => at)
  }

  lemma {:induction false} CountNone(times: seq<real>, lo: real, hi: real)
    requires Until(times, lo)
    ensures Count(times, lo, hi) == 0
    decreases |times|
  {
    if times != [] {
      CountNone(times[..|times| - 1], lo, hi);
    }
  }

  /** One more call below the budget, with the instants given, is accepted. */
  lemma BurstGrows(l: Limits, calls: seq<Call>, c: Call, n: nat)
    requires n < l.maximum && l.window > 0.0 && Accepted(l, calls) == calls
    requires Count(TimesOf(calls, c.key), c.at - l.window, c.at) == n
    ensures Accepted(l, calls + [c]) == calls + [c]
    ensures TimesOf(calls + [c], c.key) == TimesOf(calls, c.key) + [c.at]
    ensures Count(TimesOf(calls + [c], c.key), c.at - l.window, c.at) == n + 1
  {
    hide Accepted, TimesOf, Count;
    AcceptedExtended(l, calls, c);
    TimesOfExtended(calls, c, c.key);
    CountExtended(TimesOf(calls, c.key), c.at, c.at - l.window, c.at);
  }

  /** Up to the budget, calls at one instant are all accepted when no earlier one is in the window. */
  lemma {:induction false} BurstAccepted(l: Limits, before: seq<Call>, c: Call, n: nat)
    requires n <= l.maximum && l.window > 0.0 && Accepted(l, before) == before
    requires Until(TimesOf(before, c.key), c.at - l.window)
    ensures Accepted(l, before + Repeat(c, n)) == before + Repeat(c, n)
    ensures TimesOf(before + Repeat(c, n), c.key) == TimesOf(before, c.key) + Instants(c.at, n)
    ensures Count(TimesOf(before + Repeat(c, n), c.key), c.at - l.window, c.at) == n
  {
    var times := TimesOf(before, c.key);
    hide Accepted, TimesOf, Count;
    if n == 0 {
      assert before + Repeat(c, 0) == before && times + Instants(c.at, 0) == times;
      CountNone(times, c.at - l.window, c.at);
    } else {
      assert before + Repeat(c, n) == (before + Repeat(c, n - 1)) + [c];
      assert times + Instants(c.at, n) == (times + Instants(c.at, n - 1)) + [c.at];
      hide Repeat, Instants;
      BurstAccepted(l, before, c, n - 1);
      BurstGrows(l, before + Repeat(c, n - 1), c, n - 1);
    }
  }

  lemma {:induction false} CountAtInstants(at: real, n: nat, times: seq<real>, lo: real)
    ensures CountAt(times + Instants(at, n), lo) == CountAt(times, lo) + if at == lo then n else 0
  {
    if n == 0 {
      assert times + Instants(at, 0) == times;
    } else {
      CountAtInstants(at, n - 1, times, lo);
      assert (times + Instants(at, n))[..|times| + n - 1] == times + Instants(at, n - 1);
    }
  }

  lemma NoCalls(l: Limits, key: Key, lo: real)
    ensures Accepted(l, []) == [] && TimesOf([], key) == [] && Until([], lo) && CountAt([], lo) == 0
  {
  }

  lemma BurstsMonotone(a: Call, b: Call, n: nat)
    requires a.at <= b.at
    ensures Monotone(Repeat(a, n) + Repeat(b, n))
  {
  }

  lemma InstantsUntil(at: real, n: nat)
    ensures Until(Instants(at, n), at)
  {
  }

  /** Twice the budget is reached for every budget and window: a full burst, and another one exactly
      one window later. */
  lemma ClosedWindowIsTight(l: Limits, key: Key)
    requires l.window > 0.0
    ensures
      var calls := Repeat(Call(key, 0.0), l.maximum) + Repeat(Call(key, l.window), l.maximum);
      && Monotone(calls) && Accepted(l, calls) == calls
      && ClosedCount(TimesOf(calls, key), 0.0, l.window) == 2 * l.maximum
  {
    hide *;
    var n, zeros := l.maximum, Instants(0.0, l.maximum);
    var first, second := Repeat(Call(key, 0.0), n), Repeat(Call(key, l.window), n);
    NoCalls(l, key, 0.0 - l.window);
    NoCalls(l, key, 0.0);
    BurstAccepted(l, [], Call(key, 0.0), n);
    assert [] + first == first && [] + zeros == zeros;
    InstantsUntil(0.0, n);
    BurstAccepted(l, first, Call(key, l.window), n);
    BurstsMonotone(Call(key, 0.0), Call(key, l.window), n);
    ClosedSplits(TimesOf(first + second, key), 0.0, l.window);
    CountAtInstants(0.0, n, [], 0.0);
    CountAtInstants(l.window, n, zeros, 0.0);
  }

  // ---------------------------------------------------------------- keys are independent

  function Only(calls: seq<Call>, key: Key): seq<Call>
    decreases |calls|
  {
    if calls == [] then []
    else if calls[|calls| - 1].key == key then Only(calls[..|calls| - 1], key) + [calls[|calls| - 1]]
    else Only(calls[..|calls| - 1], key)
  }

  lemma {:induction false} OnlyTimes(log: seq<Call>, key: Key)
    ensures TimesOf(Only(log, key), key) == TimesOf(log, key)
    decreases |log|
  {
    if log != [] {
      OnlyTimes(log[..|log| - 1], key);
      TimesOfExtended(Only(log[..|log| - 1], key), log[|log| - 1], key);
    }
  }

  lemma OnlyExtended(log: seq<Call>, c: Call, key: Key)
    ensures Only(log + [c], key) == if c.key == key then Only(log, key) + [c] else Only(log, key)
  {
    assert (log + [c])[..|log|] == log;
  }

  /** What one key is granted depends on that key's calls alone. */
  lemma {:induction false} KeysAreIndependent(l: Limits, calls: seq<Call>, key: Key)
    ensures Only(Accepted(l, calls), key) == Accepted(l, Only(calls, key))
    decreases |calls|
  {
    if calls != [] {
      var rest, c := calls[..|calls| - 1], calls[|calls| - 1];
      assert calls == rest + [c];
      hide Count, TimesOf, Only, Accepted;
      KeysAreIndependent(l, rest, key);
      AcceptedExtended(l, rest, c);
      OnlyExtended(rest, c, key);
      OnlyExtended(Accepted(l, rest), c, key);
      OnlyTimes(Accepted(l, rest), key);
      AcceptedExtended(l, Only(rest, key), c);
    } else {
      assert Only(calls, key) == [];
    }
  }

  // ---------------------------------------------------------------- code

  /** The deque holds the accepted instants of its key except some that left every window that
      can still matter. */
  ghost predicate Holds(deque: seq<real>, times: seq<real>, horizon: real) {
    exists n :: 0 <= n <= |times| && deque == times[n..] && forall i :: 0 <= i < n ==> times[i] <= horizon
  }

  lemma {:induction false} CountSuffix(times: seq<real>, n: nat, lo: real, hi: real)
    requires n <= |times| && Until(times[..n], lo) && Until(times, hi)
    requires forall i :: n <= i < |times| ==> lo < times[i]
    ensures Count(times, lo, hi) == |times| - n
    decreases |times|
  {
    if n == |times| {
      assert times[..n] == times;
      CountNone(times, lo, hi);
    } else {
      assert times[..|times| - 1][..n] == times[..n];
      CountSuffix(times[..|times| - 1], n, lo, hi);
    }
  }

  /** Deques, accepted calls and clock agree. */
  ghost predicate Agrees(l: Limits, calls: map<Key, seq<real>>, log: seq<Call>, latest: real) {
    && l.maximum >= 1 && l.window > 0.0
    && (forall key :: Until(TimesOf(log, key), latest) && Ascending(TimesOf(log, key)))
    && (forall key :: key in calls ==> Holds(calls[key], TimesOf(log, key), latest - l.window))
    && (forall key :: key !in calls ==> TimesOf(log, key) == [])
  }

  class TenantWindowRateLimiter {
    const limits: Limits
    var calls: map<Key, seq<real>>
    ghost var requested: seq<Call>
    ghost var latest: real

    /** The deques agree with the calls accepted out of all that were ever requested. */
    ghost predicate Valid()
      reads this
    {
      && Agrees(limits, calls, Accepted(limits, requested), latest)
      && Monotone(requested) && forall i :: 0 <= i < |requested| ==> requested[i].at <= latest
    }

    constructor (maximum: nat, window: real, now: real)
      requires maximum >= 1 && window > 0.0
      ensures Valid() && limits == Limits(maximum, window) && requested == [] && latest == now
    {
      limits := Limits(maximum, window);
      calls := map[];
      requested := [];
      latest := now;
    }

    /** A call without tenant is always let through and not recorded. With a tenant, and on a
        clock that does not go back, it is accepted exactly when fewer than `maximum` accepted
        calls of this tenant and tool lie in the last window of the full history. */
    method Allow(tool: string, tenant: Option<string>, now: real) returns (ok: bool)
      requires Valid() && latest <= now
      modifies this
      ensures Valid()
      ensures tenant.None? ==> ok && requested == old(requested) && latest == old(latest)
      ensures tenant.Some? ==>
                var key := Key(tenant.value, tool);
                && (ok <==> Admits(limits, Accepted(limits, old(requested)), key, now))
                && requested == old(requested) + [Call(key, now)] && latest == now
    {
      if tenant.None? {
        return true;
      }
      hide *;
      var key := Key(tenant.value, tool);
      ghost var accepted := Accepted(limits, requested);
      ghost var from := Start(limits, calls, accepted, latest, key);
      var deque := if key in calls then calls[key] else [];
      ghost var n: nat;
      assert forall i :: 0 <= i < from ==> TimesOf(accepted, key)[i] <= now - limits.window;
      deque, n := PopExpired(deque, TimesOf(accepted, key), from, now - limits.window);
      Decided(limits, calls, accepted, latest, key, deque, n, now);
      ok := |deque| < limits.maximum;
      if ok {
        deque := deque + [now];
      }
      RequestedMore(limits, requested, Call(key, now), latest);
      requested := requested + [Call(key, now)];
      latest := now;
      calls := calls[key := deque];
    }
  }

  lemma RequestedMore(l: Limits, requested: seq<Call>, c: Call, latest: real)
    requires Monotone(requested) && latest <= c.at && forall i :: 0 <= i < |requested| ==> requested[i].at <= latest
    ensures Monotone(requested + [c]) && forall i :: 0 <= i < |requested + [c]| ==> (requested + [c])[i].at <= c.at
    ensures
      var log := Accepted(l, requested);
      Accepted(l, requested + [c]) == if Admits(l, log, c.key, c.at) then log + [c] else log
  {
    AcceptedExtended(l, requested, c);
  }

  /** Pops from the left while the oldest instant is at or before the window's open end. */
  method PopExpired(expired: seq<real>, ghost times: seq<real>, ghost from: nat, cutoff: real)
    returns (deque: seq<real>, ghost n: nat)
    requires from <= |times| && expired == times[from..] && forall i :: 0 <= i < from ==> times[i] <= cutoff
    ensures n <= |times| && deque == times[n..] && forall i :: 0 <= i < n ==> times[i] <= cutoff
    ensures n < |times| ==> times[n] > cutoff
  {
    deque, n := expired, from;
    while deque != [] && deque[0] <= cutoff
      invariant 0 <= n <= |times| && deque == times[n..]
      invariant forall i :: 0 <= i < n ==> times[i] <= cutoff
      decreases |deque|
    {
      assert deque[0] == times[n];
      deque := deque[1..];
      n := n + 1;
    }
  }

  /** Where in the history this key's deque starts. */
  lemma Start(l: Limits, calls: map<Key, seq<real>>, log: seq<Call>, latest: real, key: Key) returns (n: nat)
    requires Agrees(l, calls, log, latest)
    ensures n <= |TimesOf(log, key)| && (if key in calls then calls[key] else []) == TimesOf(log, key)[n..]
    ensures forall i :: 0 <= i < n ==> TimesOf(log, key)[i] <= latest - l.window
  {
    hide TimesOf;
    n := 0;
    if key in calls {
      var times := TimesOf(log, key);
      n :| 0 <= n <= |times| && calls[key] == times[n..] && forall i :: 0 <= i < n ==> times[i] <= latest - l.window;
    }
  }

  /** Once everything at or before the window's open end is dropped, the length is the count. */
  lemma Pruned(l: Limits, calls: map<Key, seq<real>>, log: seq<Call>, latest: real, key: Key, n: nat, now: real)
    requires Agrees(l, calls, log, latest) && latest <= now && n <= |TimesOf(log, key)|
    requires forall i :: 0 <= i < n ==> TimesOf(log, key)[i] <= now - l.window
    requires n < |TimesOf(log, key)| ==> TimesOf(log, key)[n] > now - l.window
    ensures Count(TimesOf(log, key), now - l.window, now) == |TimesOf(log, key)| - n
  {
    hide TimesOf;
    var times := TimesOf(log, key);
    assert Until(times, latest) && Ascending(times);
    CountSuffix(times, n, now - l.window, now);
  }

  /** Storing the pruned deque and the new time keeps everything in agreement. */
  lemma Refused(l: Limits, calls: map<Key, seq<real>>, log: seq<Call>, latest: real, key: Key, deque: seq<real>,
                n: nat, now: real)
    requires Agrees(l, calls, log, latest) && latest <= now && n <= |TimesOf(log, key)|
        && deque == TimesOf(log, key)[n..]
    requires forall i :: 0 <= i < n ==> TimesOf(log, key)[i] <= now - l.window
    ensures Agrees(l, calls[key := deque], log, now)
  {
    hide TimesOf, Holds;
    forall k ensures Until(TimesOf(log, k), now) {
      assert Until(TimesOf(log, k), latest);
    }
    forall k | k in calls[key := deque] ensures Holds(calls[key := deque][k], TimesOf(log, k), now - l.window) {
      if k == key {
        HoldsFrom(deque, TimesOf(log, key), n, now - l.window);
      } else {
        HoldsLater(calls[k], TimesOf(log, k), latest - l.window, now - l.window);
      }
    }
  }

  /** One decision: the pruned length decides as the full history would, and the outcome is
      recorded in agreement with it. */
  lemma Decided(l: Limits, calls: map<Key, seq<real>>, log: seq<Call>, latest: real, key: Key, deque: seq<real>,
                n: nat, now: real)
    requires Agrees(l, calls, log, latest) && latest <= now && n <= |TimesOf(log, key)|
        && deque == TimesOf(log, key)[n..]
    requires forall i :: 0 <= i < n ==> TimesOf(log, key)[i] <= now - l.window
    requires n < |TimesOf(log, key)| ==> TimesOf(log, key)[n] > now - l.window
    ensures |deque| < l.maximum <==> Admits(l, log, key, now)
    ensures if |deque| < l.maximum then Agrees(l, calls[key := deque + [now]], log + [Call(key, now)], now)
            else Agrees(l, calls[key := deque], log, now)
  {
    hide TimesOf, Agrees, Count;
    Pruned(l, calls, log, latest, key, n, now);
    Refused(l, calls, log, latest, key, deque, n, now);
    if |deque| < l.maximum {
      Recorded(l, calls[key := deque], log, key, now);
      assert calls[key := deque][key := deque + [now]] == calls[key := deque + [now]];
    }
  }

  lemma HoldsFrom(deque: seq<real>, times: seq<real>, n: nat, horizon: real)
    requires n <= |times| && deque == times[n..] && forall i :: 0 <= i < n ==> times[i] <= horizon
    ensures Holds(deque, times, horizon)
  {
  }

  /** Raising the horizon loses nothing. */
  lemma HoldsLater(deque: seq<real>, times: seq<real>, a: real, b: real)
    requires a <= b && Holds(deque, times, a)
    ensures Holds(deque, times, b)
  {
    var n :| 0 <= n <= |times| && deque == times[n..] && forall i :: 0 <= i < n ==> times[i] <= a;
  }

  /** Recording one more call keeps everything in agreement. */
  lemma Recorded(l: Limits, calls: map<Key, seq<real>>, log: seq<Call>, key: Key, now: real)
    requires Agrees(l, calls, log, now) && key in calls
    ensures Agrees(l, calls[key := calls[key] + [now]], log + [Call(key, now)], now)
  {
    hide TimesOf, Holds;
    var c := Call(key, now);
    forall k
      ensures TimesOf(log + [c], k) == (if k == key then TimesOf(log, k) + [now] else TimesOf(log, k))
      ensures Until(TimesOf(log + [c], k), now) && Ascending(TimesOf(log + [c], k))
    {
      TimesOfExtended(log, c, k);
      assert Until(TimesOf(log, k), now) && Ascending(TimesOf(log, k));
    }
    HoldsMore(calls[key], TimesOf(log, key), now, now - l.window);
  }

  lemma HoldsMore(deque: seq<real>, times: seq<real>, at: real, horizon: real)
    requires Holds(deque, times, horizon)
    ensures Holds(deque + [at], times + [at], horizon)
  {
    var n :| 0 <= n <= |times| && deque == times[n..] && forall i :: 0 <= i < n ==> times[i] <= horizon;
    assert (times + [at])[n..] == deque + [at];
  }
}
