/**
 The buyer-registration limiter: a fixed window shared by all keys, admitting a
 call only when every key it names is under the limit. Times are nanoseconds since
 the zero time, at which a new limiter's window starts.
 */
module RateLimiter {

  const MINUTE := 60_000_000_000

  datatype State = State(limit: nat, window: nat, started: int, counts: map<string, nat>)

  datatype Call = Call(now: int, keys: seq<string>)

  function Count(counts: map<string, nat>, key: string): nat {
    if key in counts then counts[key] else 0
  }

  predicate Elapsed(s: State, now: int) {
    now - s.started >= s.window
  }

  function Rolled(s: State, now: int): State {
    if Elapsed(s, now) then s.(started := now, counts := map[]) else s
  }

  predicate UnderLimit(s: State, keys: seq<string>) {
    forall i :: 0 <= i < |keys| ==> Count(s.counts, keys[i]) < s.limit
  }

  function Counted(counts: map<string, nat>, keys: seq<string>): map<string, nat> {
    if keys == [] then counts
    else
      var c := Counted(counts, keys[..|keys| - 1]);
      c[keys[|keys| - 1] := Count(c, keys[|keys| - 1]) + 1]
  }

  predicate Admits(s: State, c: Call) {
    UnderLimit(Rolled(s, c.now), c.keys)
  }

  function Next(s: State, c: Call): State {
    var f := Rolled(s, c.now);
    if Admits(s, c) then f.(counts := Counted(f.counts, c.keys)) else f
  }

  class RegistrationLimiter {
    const limit: nat
    const window: nat
    var started: int
    var counts: map<string, nat>

    ghost function Current(): State reads this {
      State(limit, window, started, counts)
    }

    constructor (perMinute: nat)
      requires perMinute > 0  // a limit of zero or less configures no limiter
      ensures Current() == Initial(perMinute)
    {
      limit, window, started, counts := perMinute, MINUTE, 0, map[];
    }

    method Allow(now: int, keys: seq<string>) returns (ok: bool)
      requires limit > 0
      modifies this
      ensures ok == Admits(old(Current()), Call(now, keys))
      ensures Current() == Next(old(Current()), Call(now, keys))
      ensures !ok ==> Current() == old(Current())
    {
      if now - started >= window {
        started, counts := now, map[];
      }
      ghost var rolled := Current();
      for i := 0 to |keys|
        invariant Current() == rolled
        invariant forall j :: 0 <= j < i ==> Count(counts, keys[j]) < limit
      {
        if Count(counts, keys[i]) >= limit {
          return false;
        }
      }
      for i := 0 to |keys|
        invariant started == rolled.started && counts == Counted(rolled.counts, keys[..i])
      {
        assert keys[..i + 1][..i] == keys[..i];
        counts := counts[keys[i] := Count(counts, keys[i]) + 1];
      }
      assert keys[..|keys|] == keys;
      return true;
    }
  }

  function Initial(limit: nat): State {
    State(limit, MINUTE, 0, map[])
  }

  /** The keys a registration is counted against, and that no two of them coincide. */
  function RegistrationKeys(caller: string, bff: string, issuer: string): (keys: seq<string>)
    ensures Distinct(keys)
  {
    var keys := ["caller:" + caller, "bff:" + bff, "issuer:" + issuer];
    assert keys[0][0] == 'c' && keys[1][0] == 'b' && keys[2][0] == 'i';
    keys
  }

  /** Two registrations share a key exactly where their callers, clients or issuers are the same. */
  lemma {:induction false} KeysTellApart(one: seq<string>, other: seq<string>, i: nat, j: nat)
    requires |one| == 3 == |other| && i < 3 && j < 3
    ensures var (a, b) := (RegistrationKeys(one[0], one[1], one[2]), RegistrationKeys(other[0], other[1], other[2]));
            |a| == 3 == |b| && (a[i] == b[j] <==> i == j && one[i] == other[i])
  {
    var prefixes := ["caller:", "bff:", "issuer:"];
    Prefixed(prefixes[i], one[i], prefixes[j], other[j]);
  }

  lemma {:induction false} Prefixed(p: string, a: string, q: string, b: string)
    requires p != "" && q != "" && (p == q || p[0] != q[0])
    ensures p + a == q + b <==> p == q && a == b
  {
    assert (p + a)[0] == p[0] && (q + b)[0] == q[0];
    assert (p + a)[|p|..] == a && (q + b)[|q|..] == b;
  }

  predicate Distinct(keys: seq<string>) {
    forall i, j :: 0 <= i < j < |keys| ==> keys[i] != keys[j]
  }

  // ---------------------------------------------------------------------
  // Histories
  // ---------------------------------------------------------------------

  datatype Run = New(limit: nat) | Then(prior: Run, call: Call)

  function Limit(r: Run): nat {
    match r case New(n) => n case Then(p, _) => Limit(p)
  }

  function After(r: Run): (s: State)
    ensures s.limit == Limit(r) && s.window == MINUTE
  {
    match r case New(n) => Initial(n) case Then(p, c) => Next(After(p), c)
  }

  /** The times of the admitted calls naming `key`, in order of admission. */
  function Log(r: Run, key: string): seq<int> {
    match r
    case New(_) => []
    case Then(p, c) => Log(p, key) + if Admits(After(p), c) && key in c.keys then [c.now] else []
  }

  predicate Rolls(r: Run) {
    r.Then? && Elapsed(After(r.prior), r.call.now)
  }

  /** How many of the log's entries precede the current window. */
  function Earlier(r: Run, key: string): nat {
    match r
    case New(_) => 0
    case Then(p, _) => if Rolls(r) then |Log(p, key)| else Earlier(p, key)
  }

  predicate EverRolled(r: Run) {
    r.Then? && (Rolls(r) || EverRolled(r.prior))
  }

  predicate KeysDistinct(r: Run) {
    r.Then? ==> KeysDistinct(r.prior) && Distinct(r.call.keys)
  }

  /** No call is stamped more than `d` before the window it meets, and none names a key twice. */
  predicate LateBy(r: Run, d: nat) {
    r.Then? ==>
      && LateBy(r.prior, d)
      && Distinct(r.call.keys)
      && (EverRolled(r.prior) ==> After(r.prior).started <= r.call.now + d)
  }

  /**
   No call is stamped before the window it meets. Calls may be out of order inside a window:
   the clock is read before the lock is taken.
   */
  predicate Orderly(r: Run) {
    LateBy(r, 0)
  }

  /** In particular a clock that never runs backwards. */
  predicate Monotone(r: Run) {
    r.Then? ==> Monotone(r.prior) && Distinct(r.call.keys) && (r.prior.Then? ==> r.prior.call.now <= r.call.now)
  }

  lemma {:induction false} MonotoneIsOrderly(r: Run)
    requires Monotone(r)
    ensures Orderly(r) && (EverRolled(r) ==> After(r).started <= r.call.now)
  {
    if r.Then? {
      MonotoneIsOrderly(r.prior);
    }
  }

  /** Admissions at times in [lo, hi). */
  function CountIn(log: seq<int>, lo: int, hi: int): nat {
    if log == [] then 0
    else CountIn(log[..|log| - 1], lo, hi) + if lo <= log[|log| - 1] < hi then 1 else 0
  }

  // ---------------------------------------------------------------------
  // Counts are admissions since the window started
  // ---------------------------------------------------------------------

  lemma {:induction false} CountedOnce(counts: map<string, nat>, keys: seq<string>, key: string)
    requires Distinct(keys)
    ensures Count(Counted(counts, keys), key) == Count(counts, key) + if key in keys then 1 else 0
  {
    if keys != [] {
      var n := |keys| - 1;
      CountedOnce(counts, keys[..n], key);
      assert keys == keys[..n] + [keys[n]];
    }
  }

  lemma {:induction false} LateKeysDistinct(r: Run, d: nat)
    requires LateBy(r, d)
    ensures KeysDistinct(r)
  {
    if r.Then? {
      LateKeysDistinct(r.prior, d);
    }
  }

  lemma {:induction false} CountsAreAdmissions(r: Run, key: string)
    requires KeysDistinct(r)
    ensures Earlier(r, key) <= |Log(r, key)|
    ensures Count(After(r).counts, key) == |Log(r, key)| - Earlier(r, key) <= Limit(r)
  {
    if r.Then? {
      CountsAreAdmissions(r.prior, key);
      CountedOnce(Rolled(After(r.prior), r.call.now).counts, r.call.keys, key);
    }
  }

  // ---------------------------------------------------------------------
  // The sliding bound
  // ---------------------------------------------------------------------

  lemma {:induction false} CountInSplit(a: seq<int>, b: seq<int>, lo: int, hi: int)
    ensures CountIn(a + b, lo, hi) == CountIn(a, lo, hi) + CountIn(b, lo, hi)
  {
    if b == [] {
      assert a + b == a;
    } else {
      var n := |b| - 1;
      assert (a + b)[..|a| + n] == a + b[..n];
      CountInSplit(a, b[..n], lo, hi);
    }
  }

  lemma {:induction false} CountInBound(log: seq<int>, lo: int, hi: int)
    ensures CountIn(log, lo, hi) <= |log|
    ensures (forall i :: 0 <= i < |log| ==> log[i] < lo || log[i] >= hi) ==> CountIn(log, lo, hi) == 0
  {
    if log != [] {
      CountInBound(log[..|log| - 1], lo, hi);
    }
  }

  /** Where the log's entries lie relative to the current window. */
  lemma {:induction false} LogInWindows(r: Run, key: string, d: nat)
    requires LateBy(r, d)
    ensures var log, n, s := Log(r, key), Earlier(r, key), After(r).started;
            && n <= |log|
            && (!EverRolled(r) ==> n == 0)
            && (forall i :: 0 <= i < |log| ==> log[i] < s + MINUTE)
            && (forall i :: 0 <= i < n ==> log[i] < s)
            && (EverRolled(r) ==> forall i :: n <= i < |log| ==> s <= log[i] + d)
  {
    if r.Then? {
      LogInWindows(r.prior, key, d);
    }
  }

  /** The current window adds at most the limit, and nothing to an interval that ends before its first stamp. */
  lemma {:induction false} CurrentAdds(log: seq<int>, n: nat, s: int, d: nat, t: int, limit: nat)
    requires n <= |log| <= n + limit
    ensures CountIn(log, t, t + MINUTE) <= CountIn(log[..n], t, t + MINUTE) + limit
    ensures (forall i :: n <= i < |log| ==> s <= log[i] + d) && t + MINUTE + d <= s ==>
              CountIn(log, t, t + MINUTE) == CountIn(log[..n], t, t + MINUTE)
  {
    assert log == log[..n] + log[n..];
    CountInSplit(log[..n], log[n..], t, t + MINUTE);
    CountInBound(log[n..], t, t + MINUTE);
  }

  /** An interval reaching back less than `j` windows from the current one meets at most `j` of those already over. */
  lemma {:induction false} PastBound(r: Run, key: string, d: nat, t: int, j: nat)
    requires LateBy(r, d) && t > After(r).started - j * MINUTE
    ensures Earlier(r, key) <= |Log(r, key)| && CountIn(Log(r, key)[..Earlier(r, key)], t, t + MINUTE) <= j * Limit(r)
  {
    if r.Then? {
      var log, n := Log(r.prior, key), Earlier(r.prior, key);
      if !Rolls(r) {
        PastBound(r.prior, key, d, t, j);
        assert Log(r, key)[..n] == log[..n];
      } else {
        assert Log(r, key)[..|log|] == log;
        if j == 0 {
          LogInWindows(r.prior, key, d);
          CountInBound(log, t, t + MINUTE);
        } else {
          LateKeysDistinct(r.prior, d);
          CountsAreAdmissions(r.prior, key);
          PastBound(r.prior, key, d, t, j - 1);
          CurrentAdds(log, n, After(r.prior).started, d, t, Limit(r));
          assert (j - 1) * Limit(r) + Limit(r) == j * Limit(r);
        }
      }
    }
  }

  /**
   How the bound degrades: when no call is stamped more than `j` windows before the one it
   meets, any half-open interval one window long admits a key at most `j + 2` times the limit.
   */
  lemma {:induction false} LateBound(r: Run, key: string, j: nat, t: int)
    requires LateBy(r, j * MINUTE)
    ensures CountIn(Log(r, key), t, t + MINUTE) <= (j + 2) * Limit(r)
    decreases r, 1
  {
    var d := j * MINUTE;
    CountNow(r, key, d, t);
    OneMoreLimit(j, Limit(r));
    if After(r).started < t + MINUTE + d {
      assert (j + 1) * MINUTE == d + MINUTE;
      PastBound(r, key, d, t, j + 1);
    } else if EverRolled(r) {
      LateBoundPast(r, key, j, t);
    }
  }

  lemma {:induction false} OneMoreLimit(j: nat, limit: nat)
    ensures (j + 1) * limit + limit == (j + 2) * limit && limit <= (j + 2) * limit
  {
  }

  /** Admissions of the windows already over that lie in the interval. */
  function CountPast(r: Run, key: string, t: int): nat {
    if Earlier(r, key) <= |Log(r, key)| then CountIn(Log(r, key)[..Earlier(r, key)], t, t + MINUTE) else 0
  }

  /** The current window adds its limit at most, and nothing to an interval before its first stamp. */
  lemma {:induction false} CountNow(r: Run, key: string, d: nat, t: int)
    requires LateBy(r, d)
    ensures CountIn(Log(r, key), t, t + MINUTE) <= CountPast(r, key, t) + Limit(r)
    ensures EverRolled(r) && t + MINUTE + d <= After(r).started ==>
              CountIn(Log(r, key), t, t + MINUTE) == CountPast(r, key, t)
    ensures !EverRolled(r) ==> CountPast(r, key, t) == 0
  {
    LogInWindows(r, key, d);
    LateKeysDistinct(r, d);
    CountsAreAdmissions(r, key);
    CurrentAdds(Log(r, key), Earlier(r, key), After(r).started, d, t, Limit(r));
  }

  lemma {:induction false} LateBoundPast(r: Run, key: string, j: nat, t: int)
    requires LateBy(r, j * MINUTE)
    ensures Earlier(r, key) <= |Log(r, key)| && CountPast(r, key, t) <= (j + 2) * Limit(r)
    decreases r, 0
  {
    if r.Then? {
      var log, n := Log(r.prior, key), Earlier(r.prior, key);
      if Rolls(r) {
        LateBound(r.prior, key, j, t);
        assert Log(r, key)[..|log|] == log;
      } else {
        LateBoundPast(r.prior, key, j, t);
        assert Log(r, key)[..n] == log[..n];
      }
    }
  }

  /** Any half-open interval one window long admits a key at most twice the limit. */
  lemma {:induction false} SlidingBound(r: Run, key: string, t: int)
    requires Orderly(r)
    ensures CountIn(Log(r, key), t, t + MINUTE) <= 2 * Limit(r)
  {
    LateBound(r, key, 0, t);
  }

  function EdgeRun(): Run {
    Then(Then(Then(New(1), Call(MINUTE, ["b"])), Call(2 * MINUTE - 1, ["a"])), Call(2 * MINUTE, ["a"]))
  }

  lemma {:induction false} CountTwo(s: int, t: int, from: int, to: int)
    requires from <= s < to && from <= t < to
    ensures CountIn([s, t], from, to) == 2
  {
    var one, two := [s], [s, t];
    assert one[..0] == [] && CountIn(one, from, to) == 1;
    assert two[..1] == one;
  }

  /** The bound is attained: an orderly clock lets a key through twice in a moment, at a window's edge. */
  lemma {:induction false} EdgeBurst()
    ensures Orderly(EdgeRun()) && Limit(EdgeRun()) == 1 && After(EdgeRun()).started == 2 * MINUTE
    ensures CountIn(Log(EdgeRun(), "a"), 2 * MINUTE - 1, 3 * MINUTE - 1) == 2
  {
    var r3 := EdgeRun();
    var r2, r1 := r3.prior, r3.prior.prior;
    assert After(r1).started == MINUTE && After(r1).counts == map["b" := 1];
    assert Log(r1, "a") == [];
    assert After(r2).started == MINUTE;
    assert Log(r2, "a") == [2 * MINUTE - 1];
    assert Log(r3, "a") == [2 * MINUTE - 1, 2 * MINUTE];
    CountTwo(2 * MINUTE - 1, 2 * MINUTE, 2 * MINUTE - 1, 3 * MINUTE - 1);
  }

  /** A call naming one key, in a new window or below the limit. */
  lemma {:induction false} SingleCall(r: Run, now: int, key: string, other: string)
    requires Limit(r) > 0 && other != key
    requires Elapsed(After(r), now) || Count(After(r).counts, key) < Limit(r)
    ensures var n := Then(r, Call(now, [key]));
            && Log(n, key) == Log(r, key) + [now] && Log(n, other) == Log(r, other)
            && After(n).started == (if Elapsed(After(r), now) then now else After(r).started)
            && Count(After(n).counts, other) == if Elapsed(After(r), now) then 0 else Count(After(r).counts, other)
  {
    CountedOnce(Rolled(After(r), now).counts, [key], other);
    assert UnderLimit(Rolled(After(r), now), [key]);
  }

  /** The degraded bound is attained too: a call one window late joins the two at the edge. */
  lemma {:induction false} LateBurst() returns (r: Run)
    ensures LateBy(r, MINUTE) && Limit(r) == 1 && CountIn(Log(r, "a"), 2 * MINUTE - 1, 3 * MINUTE - 1) == 3
  {
    EdgeBurst();
    r := JoinLate(EdgeRun());
  }

  lemma {:induction false} JoinLate(edge: Run) returns (r: Run)
    requires Orderly(edge) && Limit(edge) == 1 && After(edge).started == 2 * MINUTE
    requires CountIn(Log(edge, "a"), 2 * MINUTE - 1, 3 * MINUTE - 1) == 2
    ensures LateBy(r, MINUTE) && Limit(r) == 1 && CountIn(Log(r, "a"), 2 * MINUTE - 1, 3 * MINUTE - 1) == 3
  {
    LaterBy(edge, MINUTE);
    SingleCall(edge, 3 * MINUTE, "b", "a");
    var next := Then(edge, Call(3 * MINUTE, ["b"]));
    SingleCall(next, 2 * MINUTE, "a", "b");
    r := Then(next, Call(2 * MINUTE, ["a"]));
    assert Log(r, "a")[..|Log(edge, "a")|] == Log(edge, "a");
  }

  lemma {:induction false} LaterBy(r: Run, d: nat)
    requires Orderly(r)
    ensures LateBy(r, d)
  {
    if r.Then? {
      LaterBy(r.prior, d);
    }
  }

  function BackwardRun(): Run {
    Then(Then(Then(Then(Then(New(1), Call(MINUTE, ["a"])), Call(2 * MINUTE, ["b"])), Call(MINUTE + 1, ["a"])),
              Call(3 * MINUTE, ["b"])), Call(MINUTE + 2, ["a"]))
  }

  /** The clock matters: late calls counted in newer windows pass the bound. */
  lemma {:induction false} BackwardClockBreaksBound()
    ensures !Orderly(BackwardRun()) && Limit(BackwardRun()) == 1
    ensures CountIn(Log(BackwardRun(), "a"), MINUTE, 2 * MINUTE) == 3
  {
    var r5 := BackwardRun();
    var r4, r3, r2, r1 := r5.prior, r5.prior.prior, r5.prior.prior.prior, r5.prior.prior.prior.prior;
    assert Log(r1, "a") == [MINUTE];
    assert After(r2).started == 2 * MINUTE && After(r2).counts == map["b" := 1];
    assert Log(r2, "a") == [MINUTE];
    assert Log(r3, "a") == [MINUTE, MINUTE + 1];
    assert After(r4).started == 3 * MINUTE && After(r4).counts == map["b" := 1];
    assert Log(r5, "a") == [MINUTE, MINUTE + 1, MINUTE + 2];
    assert Log(r5, "a")[..2] == [MINUTE, MINUTE + 1] && Log(r5, "a")[..2][..1] == [MINUTE];
    assert CountIn([MINUTE], MINUTE, 2 * MINUTE) == 1;
    assert CountIn([MINUTE, MINUTE + 1], MINUTE, 2 * MINUTE) == 2;
    assert !Orderly(r3) && !Orderly(r4);
  }
}
