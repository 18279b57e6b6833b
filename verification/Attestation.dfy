/**
 How long an attestation lasts, and how one rests on another. Times are nanoseconds since
 the zero time; an attestation is stamped in whole seconds.
 */
module Attestation {
  import opened Common

  const TTL := 60 * SECOND

  const PROVENANCE_WINDOW := 60 * SECOND

  function Truncate(t: int): int {
    t - t % SECOND
  }

  datatype Window = Window(issued: int, expires: int)

  // ---------------------------------------------------------------------
  // The window
  // ---------------------------------------------------------------------

  /** The least of the bounds and the longest life, a minute, to the whole second. */
  ghost predicate Proper(now: int, bounds: set<int>, w: Window) {
    && w.issued <= now < w.expires <= now + 60 * SECOND
    && w.issued % SECOND == 0 && w.expires % SECOND == 0 && now < w.issued + SECOND
    && (forall b :: b in bounds ==> w.expires <= b)
    && (now + 60 * SECOND < w.expires + SECOND || exists b :: b in bounds && b < w.expires + SECOND)
  }

  /** Every bound lies past the second `now` is in. */
  ghost predicate Lasts(now: int, bounds: set<int>) {
    forall b :: b in bounds ==> Truncate(now) + SECOND <= b
  }

  ghost predicate IsLeast(now: int, bounds: set<int>, t: int) {
    (t == now + 60 * SECOND || t in bounds) && t <= now + 60 * SECOND && forall b :: b in bounds ==> t <= b
  }

  lemma {:induction false} TruncateBounds(t: int)
    ensures Truncate(t) <= t < Truncate(t) + SECOND && Truncate(t) % SECOND == 0
  {
  }

  lemma {:induction false} TruncateMonotone(s: int, t: int)
    ensures Truncate(s) < Truncate(t) <==> Truncate(s) + SECOND <= t
  {
    var i, j := s / SECOND, t / SECOND;
    assert Truncate(s) == i * SECOND && Truncate(t) == j * SECOND;
  }

  /** Stamping the least bound gives a proper window exactly when every bound lasts. */
  lemma {:induction false} StampedProper(now: int, bounds: set<int>, t: int)
    requires IsLeast(now, bounds, t)
    ensures Truncate(now) < Truncate(t) <==> Lasts(now, bounds)
    ensures Truncate(now) < Truncate(t) ==> Proper(now, bounds, Window(Truncate(now), Truncate(t)))
  {
    TruncateMonotone(now, t);
    TruncateBounds(now);
    TruncateBounds(t);
  }

  /** No window outlasts another for the same bounds by a second. */
  lemma {:induction false} ProperIsOne(now: int, bounds: set<int>, v: Window, w: Window)
    requires Proper(now, bounds, v) && Proper(now, bounds, w)
    ensures v == w
  {
    SameSecond(v.issued, w.issued, now);
    assert v.expires < w.expires + SECOND && w.expires < v.expires + SECOND;
    WholeSeconds(v.expires, w.expires);
  }

  lemma {:induction false} WholeSeconds(s: int, t: int)
    requires s % SECOND == 0 && t % SECOND == 0 && s < t + SECOND && t < s + SECOND
    ensures s == t
  {
    assert s == s / SECOND * SECOND && t == t / SECOND * SECOND;
  }

  lemma {:induction false} SameSecond(s: int, t: int, now: int)
    requires s % SECOND == 0 && t % SECOND == 0 && s <= now < s + SECOND && t <= now < t + SECOND
    ensures s == t
  {
    WholeSeconds(s, t);
  }

  /**
   An attestation is still in force at a later time exactly when its bounds, and its own
   longest life, lie past the second that time is in.
   */
  lemma {:induction false} InForceExactlyWhen(at: int, bounds: set<int>, w: Window, now: int)
    requires Proper(at, bounds, w)
    ensures now < w.expires <==> Lasts(now, bounds) && Truncate(now) + SECOND <= at + 60 * SECOND
  {
    TruncateBounds(now);
    if now < w.expires {
      TruncateMonotone(now, w.expires);
      assert Truncate(w.expires) == w.expires;
    } else {
      WholeFloor(w.expires, now);
    }
  }

  lemma {:induction false} WholeFloor(s: int, t: int)
    requires s % SECOND == 0 && s <= t
    ensures s <= Truncate(t)
  {
    assert s == s / SECOND * SECOND && Truncate(t) == t / SECOND * SECOND;
  }

  function Bounds(a: Option<int>): set<int> {
    if a.Some? then {a.value} else {}
  }

  /** Client bindings: the evidence's expiry, by its token and by introspection. */
  method BindingWindow(now: int, tokenExpires: int, introspected: Option<int>) returns (w: Option<Window>)
    ensures w.Some? <==> Lasts(now, {tokenExpires} + Bounds(introspected))
    ensures w.Some? ==> Proper(now, {tokenExpires} + Bounds(introspected), w.value)
  {
    var expires := now + TTL;
    var evidence := tokenExpires;
    if introspected.Some? && introspected.value < evidence {
      evidence := introspected.value;
    }
    if evidence < expires {
      expires := evidence;
    }
    StampedProper(now, {tokenExpires} + Bounds(introspected), expires);
    if Truncate(expires) <= Truncate(now) {
      return None;
    }
    return Some(Window(Truncate(now), Truncate(expires)));
  }

  /** Commerce profiles: the profile's effective end. */
  method ProfileWindow(now: int, until: Option<int>) returns (w: Option<Window>)
    ensures w.Some? <==> Lasts(now, Bounds(until))
    ensures w.Some? ==> Proper(now, Bounds(until), w.value)
  {
    var expires := now + TTL;
    if until.Some? && until.value < expires {
      expires := until.value;
    }
    StampedProper(now, Bounds(until), expires);
    if Truncate(expires) <= Truncate(now) {
      return None;
    }
    return Some(Window(Truncate(now), Truncate(expires)));
  }

  /** Resource assignments: the assignment's effective end and the workload evidence's expiry. */
  method AssignmentWindow(now: int, until: Option<int>, evidence: Option<int>) returns (w: Option<Window>)
    ensures w.Some? <==> Lasts(now, Bounds(until) + Bounds(evidence))
    ensures w.Some? ==> Proper(now, Bounds(until) + Bounds(evidence), w.value)
  {
    var expires := now + TTL;
    if until.Some? && until.value < expires {
      expires := until.value;
    }
    if evidence.Some? && evidence.value < expires {
      expires := evidence.value;
    }
    StampedProper(now, Bounds(until) + Bounds(evidence), expires);
    if Truncate(expires) <= Truncate(now) {
      return None;
    }
    return Some(Window(Truncate(now), Truncate(expires)));
  }
}
