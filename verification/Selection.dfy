/**
 Choosing the one record that may be attested: candidates are narrowed stage by stage, the
 stage that empties them names the denial, and what is left must be a single record.
 Ambiguity is never resolved by order.
 */
module Selection {
  import opened Sorting

  datatype Stage<!T> = Stage(denial: string, keep: T -> bool)

  /** `Empty` is no candidate to begin with; `Denied(i)` is that stage `i` left none. */
  datatype Verdict<T> = Attested(chosen: T) | Empty | Denied(stage: nat) | Ambiguous(count: nat)

  function Filter<T>(s: seq<T>, keep: T -> bool): seq<T> {
    if s == [] then [] else (if keep(s[0]) then [s[0]] else []) + Filter(s[1..], keep)
  }

  predicate Passes<T(!new)>(stages: seq<Stage<T>>, n: nat, x: T)
    requires n <= |stages|
  {
    forall i :: 0 <= i < n ==> stages[i].keep(x)
  }

  /** How many candidates pass the first `n` stages, counting repeats. */
  function Count<T(!new)>(s: seq<T>, stages: seq<Stage<T>>, n: nat): nat
    requires n <= |stages|
  {
    if s == [] then 0 else (if Passes(stages, n, s[0]) then 1 else 0) + Count(s[1..], stages, n)
  }

  // ---------------------------------------------------------------------
  // What a verdict means, without saying how it is found
  // ---------------------------------------------------------------------

  ghost predicate Means<T(!new)>(s: seq<T>, stages: seq<Stage<T>>, v: Verdict<T>) {
    match v
    case Attested(x) => x in s && Passes(stages, |stages|, x) && Count(s, stages, |stages|) == 1
    case Ambiguous(n) => n == Count(s, stages, |stages|) && n > 1
    case Empty => s == []
    case Denied(i) => i < |stages| && Count(s, stages, i) > 0 && Count(s, stages, i + 1) == 0
  }

  lemma {:induction false} CountMembers<T(!new)>(s: seq<T>, stages: seq<Stage<T>>, n: nat)
    requires n <= |stages|
    ensures Count(s, stages, n) > 0 <==> exists x :: x in s && Passes(stages, n, x)
    decreases |s|
  {
    if s != [] {
      CountMembers(s[1..], stages, n);
      if x :| x in s && Passes(stages, n, x) {
        assert x == s[0] || x in s[1..];
      }
      assert forall x :: x in s[1..] ==> x in s;
    }
  }

  lemma {:induction false} CountShrinks<T(!new)>(s: seq<T>, stages: seq<Stage<T>>, m: nat, n: nat)
    requires m <= n <= |stages|
    ensures Count(s, stages, n) <= Count(s, stages, m)
    decreases |s|
  {
    if s != [] {
      CountShrinks(s[1..], stages, m, n);
    }
  }

  lemma {:induction false} OnlyOne<T(!new)>(s: seq<T>, stages: seq<Stage<T>>, n: nat, x: T, y: T)
    requires n <= |stages| && Count(s, stages, n) == 1
    requires x in s && y in s && Passes(stages, n, x) && Passes(stages, n, y)
    ensures x == y
    decreases |s|
  {
    if Passes(stages, n, s[0]) {
      CountMembers(s[1..], stages, n);
    } else {
      OnlyOne(s[1..], stages, n, x, y);
    }
  }

  /** A verdict is determined by what it means. */
  lemma {:induction false} MeansOne<T(!new)>(s: seq<T>, stages: seq<Stage<T>>, v: Verdict<T>, w: Verdict<T>)
    requires Means(s, stages, v) && Means(s, stages, w)
    ensures v == w
  {
    DenialsFixCounts(s, stages);
    if v.Attested? && w.Attested? {
      OnlyOne(s, stages, |stages|, v.chosen, w.chosen);
    }
  }

  /** A record is attested exactly when one candidate satisfies every stage, and denied exactly when none does. */
  lemma {:induction false} AttestsExactlyOne<T(!new)>(s: seq<T>, stages: seq<Stage<T>>, v: Verdict<T>)
    requires Means(s, stages, v)
    ensures v.Attested? <==> Count(s, stages, |stages|) == 1
    ensures v.Ambiguous? <==> Count(s, stages, |stages|) > 1
    ensures v.Attested? ==> forall x :: x in s && Passes(stages, |stages|, x) ==> x == v.chosen
  {
    DenialsFixCounts(s, stages);
    if v.Attested? {
      forall x | x in s && Passes(stages, |stages|, x)
        ensures x == v.chosen
      {
        OnlyOne(s, stages, |stages|, x, v.chosen);
      }
    }
  }

  /** Up to the stage that empties them candidates are left, and from it on none. */
  lemma {:induction false} DenialsFixCounts<T(!new)>(s: seq<T>, stages: seq<Stage<T>>)
    ensures forall i: nat, n: nat :: Means(s, stages, Denied(i)) && n <= |stages| ==>
            (Count(s, stages, n) > 0 <==> n <= i)
  {
    forall i: nat, n: nat | Means(s, stages, Denied(i)) && n <= |stages|
      ensures Count(s, stages, n) > 0 <==> n <= i
    {
      if n <= i {
        CountShrinks(s, stages, n, i);
      } else {
        CountShrinks(s, stages, i + 1, n);
      }
    }
  }

  // ---------------------------------------------------------------------
  // The order of candidates is immaterial
  // ---------------------------------------------------------------------

  lemma {:induction false} CountSplit<T(!new)>(a: seq<T>, b: seq<T>, stages: seq<Stage<T>>, n: nat)
    requires n <= |stages|
    ensures Count(a + b, stages, n) == Count(a, stages, n) + Count(b, stages, n)
    decreases |a|
  {
    if a == [] {
      assert a + b == b;
    } else {
      CountSplit(a[1..], b, stages, n);
      assert (a + b)[1..] == a[1..] + b;
    }
  }

  lemma {:induction false} WithoutOne<T>(t: seq<T>, i: nat)
    requires i < |t|
    ensures multiset(t[..i] + t[i + 1..]) == multiset(t) - multiset{t[i]}
  {
    assert t == t[..i] + [t[i]] + t[i + 1..];
  }

  lemma {:induction false} FindFirst<T>(s: seq<T>, t: seq<T>) returns (i: nat)
    requires s != [] && multiset(s) == multiset(t)
    ensures i < |t| && t[i] == s[0] && multiset(s[1..]) == multiset(t[..i] + t[i + 1..])
  {
    assert s[0] in multiset(t);
    i :| i < |t| && t[i] == s[0];
    TailMultiset(s);
    WithoutOne(t, i);
  }

  lemma {:induction false} CountWithout<T(!new)>(t: seq<T>, i: nat, stages: seq<Stage<T>>, n: nat)
    requires n <= |stages| && i < |t|
    ensures Count(t, stages, n) == Count(t[..i] + t[i + 1..], stages, n) + if Passes(stages, n, t[i]) then 1 else 0
  {
    var tail := [t[i]] + t[i + 1..];
    assert t == t[..i] + tail;
    assert tail[1..] == t[i + 1..];
    CountSplit(t[..i], tail, stages, n);
    CountSplit(t[..i], t[i + 1..], stages, n);
  }

  lemma {:induction false} CountPermuted<T(!new)>(s: seq<T>, t: seq<T>, stages: seq<Stage<T>>, n: nat)
    requires n <= |stages| && multiset(s) == multiset(t)
    ensures Count(s, stages, n) == Count(t, stages, n)
    decreases |s|
  {
    if s == [] {
      assert |multiset(t)| == 0;
    } else {
      var i := FindFirst(s, t);
      CountPermuted(s[1..], t[..i] + t[i + 1..], stages, n);
      CountWithout(t, i, stages, n);
    }
  }

  /** Verdict, count and chosen record are the same for every order of the candidates. */
  lemma {:induction false} OrderImmaterial<T(!new)>(s: seq<T>, t: seq<T>, stages: seq<Stage<T>>, v: Verdict<T>)
    requires multiset(s) == multiset(t) && Means(s, stages, v)
    ensures Means(t, stages, v)
  {
    CountPermuted(s, t, stages, |stages|);
    match v
    case Attested(x) => assert x in multiset(t);
    case Denied(i) =>
      CountPermuted(s, t, stages, i);
      CountPermuted(s, t, stages, i + 1);
    case Empty => assert |multiset(t)| == 0;
    case Ambiguous(_) =>
  }

  // ---------------------------------------------------------------------
  // Narrowing stage by stage
  // ---------------------------------------------------------------------

  /** What the first `n` stages leave. */
  function Sift<T(!new)>(s: seq<T>, stages: seq<Stage<T>>, n: nat): seq<T>
    requires n <= |stages|
  {
    if s == [] then [] else (if Passes(stages, n, s[0]) then [s[0]] else []) + Sift(s[1..], stages, n)
  }

  lemma {:induction false} SiftLength<T(!new)>(s: seq<T>, stages: seq<Stage<T>>, n: nat)
    requires n <= |stages|
    ensures |Sift(s, stages, n)| == Count(s, stages, n)
    decreases |s|
  {
    if s != [] {
      SiftLength(s[1..], stages, n);
    }
  }

  lemma {:induction false} SiftMember<T(!new)>(s: seq<T>, stages: seq<Stage<T>>, n: nat, x: T)
    requires n <= |stages| && x in Sift(s, stages, n)
    ensures x in s && Passes(stages, n, x)
    decreases |s|
  {
    if !(Passes(stages, n, s[0]) && x == s[0]) {
      SiftMember(s[1..], stages, n, x);
    }
  }

  lemma {:induction false} FilterPrepend<T>(x: T, rest: seq<T>, keep: T -> bool)
    ensures Filter([x] + rest, keep) == (if keep(x) then [x] else []) + Filter(rest, keep)
  {
    assert ([x] + rest)[1..] == rest;
  }

  lemma {:induction false} SiftOnce<T(!new)>(s: seq<T>, stages: seq<Stage<T>>, n: nat)
    requires n < |stages|
    ensures Filter(Sift(s, stages, n), stages[n].keep) == Sift(s, stages, n + 1)
    decreases |s|
  {
    if s != [] {
      SiftOnce(s[1..], stages, n);
      assert Passes(stages, n + 1, s[0]) <==> Passes(stages, n, s[0]) && stages[n].keep(s[0]);
      if Passes(stages, n, s[0]) {
        FilterPrepend(s[0], Sift(s[1..], stages, n), stages[n].keep);
      } else {
        assert Sift(s, stages, n) == Sift(s[1..], stages, n);
        assert Sift(s, stages, n + 1) == Sift(s[1..], stages, n + 1);
      }
    }
  }

  lemma {:induction false} SiftNone<T(!new)>(s: seq<T>, stages: seq<Stage<T>>)
    ensures Sift(s, stages, 0) == s
    decreases |s|
  {
    if s != [] {
      SiftNone(s[1..], stages);
    }
  }

  lemma {:induction false} FilterStep<T>(s: seq<T>, i: nat, keep: T -> bool, out: seq<T>)
    requires i < |s|
    ensures out + Filter(s[i..], keep) == (if keep(s[i]) then out + [s[i]] else out) + Filter(s[i + 1..], keep)
  {
    assert s[i..][1..] == s[i + 1..];
  }

  method FilterLoop<T(==, !new)>(s: seq<T>, keep: T -> bool) returns (out: seq<T>)
    ensures out == Filter(s, keep)
  {
    out := [];
    for i := 0 to |s|
      invariant Filter(s, keep) == out + Filter(s[i..], keep)
    {
      FilterStep(s, i, keep, out);
      if keep(s[i]) {
        out := out + [s[i]];
      }
    }
  }

  /** What the last stage leaves, judged. */
  lemma {:induction false} Judge<T(!new)>(s: seq<T>, stages: seq<Stage<T>>, left: seq<T>)
    requires s != [] && left == Sift(s, stages, |stages|) && left != []
    ensures Means(s, stages, if |left| > 1 then Ambiguous(|left|) else Attested(left[0]))
  {
    SiftLength(s, stages, |stages|);
    SiftMember(s, stages, |stages|, left[0]);
  }

  /** Stages in a loop, as the assignment selector runs them. */
  method Select<T(==, !new)>(candidates: seq<T>, stages: seq<Stage<T>>) returns (v: Verdict<T>)
    ensures Means(candidates, stages, v)
  {
    if candidates == [] {
      return Empty;
    }
    var left := candidates;
    SiftNone(candidates, stages);
    for i := 0 to |stages|
      invariant left == Sift(candidates, stages, i) && left != []
    {
      SiftOnce(candidates, stages, i);
      SiftLength(candidates, stages, i);
      SiftLength(candidates, stages, i + 1);
      left := FilterLoop(left, stages[i].keep);
      if left == [] {
        return Denied(i);
      }
    }
    Judge(candidates, stages, left);
    return if |left| > 1 then Ambiguous(|left|) else Attested(left[0]);
  }
}
