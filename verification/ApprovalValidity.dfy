/**
 Until when an approval decision's authority lasts: the earliest of the token's expiry and,
 for every matched grant, its own expiry, the freshness its assurance demands and the
 expiries up its delegation chain. Delegations are data and may be cyclic.
 */
module ApprovalValidity {
  import opened Common

  const MAX_HOPS := 3

  datatype Grant = Grant(id: string, validUntil: Option<int>, delegation: bool, delegatedFrom: string)

  /** What the decision is judged on. An absent time is the source's zero or nil time. */
  datatype Evidence = Evidence(now: int, tokenExpires: Option<int>, authenticatedAt: Option<int>,
                               grants: seq<Grant>, sources: map<string, Grant>)

  // ---------------------------------------------------------------------
  // What bounds the authority
  // ---------------------------------------------------------------------

  /** The grant an identifier names: of repeated ones, the last. */
  function Named(grants: seq<Grant>, id: string): Option<Grant> {
    if grants == [] then None
    else if grants[|grants| - 1].id == id then Some(grants[|grants| - 1])
    else Named(grants[..|grants| - 1], id)
  }

  /** The grant `n` delegations up from `g`, if the chain goes that far. */
  function Ancestor(sources: map<string, Grant>, g: Grant, n: nat): Option<Grant>
    decreases n
  {
    if n == 0 then Some(g)
    else if g.delegation && g.delegatedFrom in sources then Ancestor(sources, sources[g.delegatedFrom], n - 1)
    else None
  }

  /** Within `hops` delegations the chain ends at a grant that is not one. */
  ghost predicate Rooted(sources: map<string, Grant>, g: Grant, hops: nat) {
    exists n: nat :: n <= hops && Ancestor(sources, g, n).Some? && !Ancestor(sources, g, n).value.delegation
  }

  /** The time is the expiry of `g` or of a grant it derives from. */
  ghost predicate ChainBound(sources: map<string, Grant>, g: Grant, t: int) {
    exists n: nat :: Ancestor(sources, g, n).Some? && Ancestor(sources, g, n).value.validUntil == Some(t)
  }

  ghost predicate FreshnessBound(e: Evidence, maxAge: Grant -> int, g: Grant, t: int) {
    maxAge(g) > 0 && e.authenticatedAt.Some? && t == e.authenticatedAt.value + maxAge(g) * SECOND
  }

  ghost predicate Usable(e: Evidence, maxAge: Grant -> int, id: string) {
    && Named(e.grants, id).Some?
    && var g := Named(e.grants, id).value;
       Rooted(e.sources, g, 3) && (maxAge(g) > 0 ==> e.authenticatedAt.Some?)
  }

  ghost predicate GrantBound(e: Evidence, maxAge: Grant -> int, id: string, t: int) {
    && Named(e.grants, id).Some?
    && var g := Named(e.grants, id).value;
       ChainBound(e.sources, g, t) || FreshnessBound(e, maxAge, g, t)
  }

  ghost predicate Bound(e: Evidence, maxAge: Grant -> int, matched: set<string>, t: int) {
    e.tokenExpires == Some(t) || exists id :: id in matched && GrantBound(e, maxAge, id, t)
  }

  ghost predicate Least(e: Evidence, maxAge: Grant -> int, matched: set<string>, t: int) {
    Bound(e, maxAge, matched, t) && forall u :: Bound(e, maxAge, matched, u) ==> t <= u
  }

  /** The authority holds, and until when, stated over the set of matched grants alone. */
  ghost predicate Holds(e: Evidence, maxAge: Grant -> int, matched: set<string>, until: int) {
    && e.tokenExpires.Some? && matched != {}
    && (forall id :: id in matched ==> Usable(e, maxAge, id))
    && Least(e, maxAge, matched, until)
    && e.now < until
  }

  function Members(ids: seq<string>): set<string> {
    set id | id in ids
  }

  // ---------------------------------------------------------------------
  // The computation
  // ---------------------------------------------------------------------

  method IndexGrants(grants: seq<Grant>) returns (byID: map<string, Grant>)
    ensures forall id :: id in byID <==> Named(grants, id).Some?
    ensures forall id :: id in byID ==> Named(grants, id) == Some(byID[id])
  {
    byID := map[];
    for i := 0 to |grants|
      invariant forall id :: id in byID <==> Named(grants[..i], id).Some?
      invariant forall id :: id in byID ==> Named(grants[..i], id) == Some(byID[id])
    {
      byID := byID[grants[i].id := grants[i]];
      assert grants[..i + 1][..i] == grants[..i];
    }
    assert grants[..|grants|] == grants;
  }

  function Earlier(a: int, b: Option<int>): int {
    if b.Some? && b.value < a then b.value else a
  }

  /** `until` lowered by every expiry from the `n`th ancestor of `g` down; the walk itself. */
  ghost predicate Lowered(sources: map<string, Grant>, g: Grant, n: nat, was: int, until: int) {
    && until <= was
    && (until == was || exists k: nat {:trigger Ancestor(sources, g, k)} ::
          k <= n && Ancestor(sources, g, k).Some? && Ancestor(sources, g, k).value.validUntil == Some(until))
    && forall k: nat {:trigger Ancestor(sources, g, k)} ::
         k <= n && Ancestor(sources, g, k).Some? && Ancestor(sources, g, k).value.validUntil.Some? ==>
           until <= Ancestor(sources, g, k).value.validUntil.value
  }

  lemma {:induction false} AncestorStep(sources: map<string, Grant>, g: Grant, n: nat)
    requires Ancestor(sources, g, n).Some?
    ensures var h := Ancestor(sources, g, n).value;
            Ancestor(sources, g, n + 1) ==
              if h.delegation && h.delegatedFrom in sources then Some(sources[h.delegatedFrom]) else None
    decreases n
  {
    if n > 0 {
      AncestorStep(sources, sources[g.delegatedFrom], n - 1);
    }
  }

  lemma {:induction false} ChainEnds(sources: map<string, Grant>, g: Grant, n: nat, k: nat)
    requires Ancestor(sources, g, n).None? && n <= k
    ensures Ancestor(sources, g, k).None?
    decreases k
  {
    if n < k {
      ChainEnds(sources, g, n, k - 1);
      AncestorLast(sources, g, k);
    }
  }

  lemma {:induction false} AncestorLast(sources: map<string, Grant>, g: Grant, k: nat)
    requires k > 0 && Ancestor(sources, g, k - 1).None?
    ensures Ancestor(sources, g, k).None?
    decreases k
  {
    if k > 1 && g.delegation && g.delegatedFrom in sources {
      AncestorLast(sources, sources[g.delegatedFrom], k - 1);
    }
  }

  /** The inner loop: lowers `until` by the grant's chain, or reports that it does not resolve. */
  method WalkChain(sources: map<string, Grant>, g: Grant, was: int) returns (until: int, ok: bool)
    ensures ok <==> Rooted(sources, g, 3)
    ensures ok ==> until <= was && (until == was || ChainBound(sources, g, until))
    ensures ok ==> forall t :: ChainBound(sources, g, t) ==> until <= t
  {
    until := Earlier(was, g.validUntil);
    var current := g;
    var hops: nat := 0;
    while current.delegation
      invariant hops <= MAX_HOPS && Ancestor(sources, g, hops) == Some(current)
      invariant forall k: nat :: k < hops ==> Ancestor(sources, g, k).Some? && Ancestor(sources, g, k).value.delegation
      invariant Lowered(sources, g, hops, was, until)
      decreases MAX_HOPS - hops
    {
      AncestorStep(sources, g, hops);
      if hops >= MAX_HOPS {
        return until, false;
      }
      if current.delegatedFrom !in sources {
        NotRooted(sources, g, hops);
        return until, false;
      }
      var parent := sources[current.delegatedFrom];
      LowerOnce(sources, g, hops, was, until, parent);
      until := Earlier(until, parent.validUntil);
      current := parent;
      hops := hops + 1;
    }
    AncestorStep(sources, g, hops);
    BoundsAreLowered(sources, g, hops, was, until);
    return until, true;
  }

  lemma {:induction false} NotRooted(sources: map<string, Grant>, g: Grant, n: nat)
    requires Ancestor(sources, g, n + 1).None?
    requires forall k: nat :: k <= n ==> Ancestor(sources, g, k).Some? && Ancestor(sources, g, k).value.delegation
    ensures !Rooted(sources, g, 3)
  {
    forall k: nat | k > n
      ensures Ancestor(sources, g, k).None?
    {
      ChainEnds(sources, g, n + 1, k);
    }
  }

  lemma {:induction false} LowerOnce(sources: map<string, Grant>, g: Grant, n: nat, was: int, until: int, parent: Grant)
    requires Lowered(sources, g, n, was, until) && Ancestor(sources, g, n + 1) == Some(parent)
    ensures Lowered(sources, g, n + 1, was, Earlier(until, parent.validUntil))
  {
    var next := Earlier(until, parent.validUntil);
    if next != until {
      assert Ancestor(sources, g, n + 1).value.validUntil == Some(next);
    }
    forall k: nat | k <= n + 1 && Ancestor(sources, g, k).Some? && Ancestor(sources, g, k).value.validUntil.Some?
      ensures next <= Ancestor(sources, g, k).value.validUntil.value
    {
      if k <= n {
        assert until <= Ancestor(sources, g, k).value.validUntil.value;
      }
    }
  }

  lemma {:induction false} BoundsAreLowered(sources: map<string, Grant>, g: Grant, n: nat, was: int, until: int)
    requires Lowered(sources, g, n, was, until) && Ancestor(sources, g, n + 1).None?
    ensures until == was || ChainBound(sources, g, until)
    ensures forall t :: ChainBound(sources, g, t) ==> until <= t
  {
    forall t | ChainBound(sources, g, t)
      ensures until <= t
    {
      var k: nat :| Ancestor(sources, g, k).Some? && Ancestor(sources, g, k).value.validUntil == Some(t);
      if k > n {
        ChainEnds(sources, g, n + 1, k);
        assert false;
      }
    }
  }

  /** One grant: its chain and the freshness it demands. */
  method NarrowByGrant(e: Evidence, maxAge: Grant -> int, g: Grant, was: int) returns (until: int, ok: bool)
    ensures ok <==> Rooted(e.sources, g, 3) && (maxAge(g) > 0 ==> e.authenticatedAt.Some?)
    ensures ok ==> until <= was
    ensures ok ==> until == was || ChainBound(e.sources, g, until) || FreshnessBound(e, maxAge, g, until)
    ensures ok ==> forall t :: ChainBound(e.sources, g, t) || FreshnessBound(e, maxAge, g, t) ==> until <= t
  {
    until := was;
    if maxAge(g) > 0 {
      if e.authenticatedAt.None? {
        return until, false;
      }
      until := Earlier(until, Some(e.authenticatedAt.value + maxAge(g) * SECOND));
    }
    until, ok := WalkChain(e.sources, g, until);
  }

  ghost predicate Progress(e: Evidence, maxAge: Grant -> int, done: seq<string>, until: int) {
    && (forall id :: id in done ==> Usable(e, maxAge, id))
    && Least(e, maxAge, Members(done), until)
  }

  lemma {:induction false} ProgressStep(e: Evidence, maxAge: Grant -> int, done: seq<string>, id: string, was: int,
                                        until: int)
    requires Progress(e, maxAge, done, was) && Usable(e, maxAge, id)
    requires until <= was && (until == was || GrantBound(e, maxAge, id, until))
    requires forall t :: GrantBound(e, maxAge, id, t) ==> until <= t
    ensures Progress(e, maxAge, done + [id], until)
  {
    var next := Members(done + [id]);
    if until != was {
      assert id in next && GrantBound(e, maxAge, id, until);
    } else if e.tokenExpires != Some(until) {
      var i :| i in Members(done) && GrantBound(e, maxAge, i, until);
      assert i in next;
    }
    forall t | Bound(e, maxAge, next, t)
      ensures until <= t
    {
      if e.tokenExpires == Some(t) {
        assert Bound(e, maxAge, Members(done), t);
      } else {
        var i :| i in next && GrantBound(e, maxAge, i, t);
        assert i == id || i in Members(done);
        assert i != id ==> Bound(e, maxAge, Members(done), t);
      }
    }
  }

  /**
   The approval's validity. It is found exactly when the authority holds, and is then the
   least of all bounds.
   */
  method ApprovalValidUntil(e: Evidence, maxAge: Grant -> int, matched: seq<string>) returns (validity: Option<int>)
    ensures validity.Some? ==> Holds(e, maxAge, Members(matched), validity.value)
    ensures validity.None? ==> forall t :: !Holds(e, maxAge, Members(matched), t)
  {
    if e.tokenExpires.None? || !(e.now < e.tokenExpires.value) || matched == [] {
      ghost var none := Members(matched);
      assert matched == [] ==> none == {};
      assert e.tokenExpires.Some? ==> Bound(e, maxAge, none, e.tokenExpires.value);
      return None;
    }
    var until := e.tokenExpires.value;
    var byID := IndexGrants(e.grants);
    var i := 0;
    while i < |matched|
      invariant 0 <= i <= |matched|
      invariant Progress(e, maxAge, matched[..i], until)
    {
      if matched[i] !in byID {
        assert matched[i] in Members(matched) && !Usable(e, maxAge, matched[i]);
        return None;
      }
      var g := byID[matched[i]];
      var next, ok := NarrowByGrant(e, maxAge, g, until);
      if !ok {
        assert matched[i] in Members(matched) && !Usable(e, maxAge, matched[i]);
        return None;
      }
      ProgressStep(e, maxAge, matched[..i], matched[i], until, next);
      assert matched[..i + 1] == matched[..i] + [matched[i]];
      until := next;
      i := i + 1;
    }
    assert matched[..|matched|] == matched;
    assert matched[0] in Members(matched);
    if e.now < until {
      return Some(until);
    }
    return None;
  }

  // ---------------------------------------------------------------------
  // What follows from it
  // ---------------------------------------------------------------------

  /** The validity is one time, and repeating or reordering the matched grants changes nothing. */
  lemma {:induction false} ValidityIgnoresOrder(e: Evidence, maxAge: Grant -> int, one: seq<string>, other: seq<string>,
                                                s: int, t: int)
    requires forall id :: id in one <==> id in other
    requires Holds(e, maxAge, Members(one), s)
    ensures Holds(e, maxAge, Members(other), t) <==> t == s
  {
    assert Members(one) == Members(other);
  }

  /** It is never later than the token or any matched grant, and every grant it rests on is matched. */
  lemma {:induction false} ValidityBounded(e: Evidence, maxAge: Grant -> int, matched: seq<string>, until: int)
    requires Holds(e, maxAge, Members(matched), until)
    ensures e.now < until <= e.tokenExpires.value
    ensures forall id, t :: id in matched && GrantBound(e, maxAge, id, t) ==> until <= t
  {
    assert Bound(e, maxAge, Members(matched), e.tokenExpires.value);
    forall id, t | id in matched && GrantBound(e, maxAge, id, t)
      ensures until <= t
    {
      assert id in Members(matched);
      assert Bound(e, maxAge, Members(matched), t);
    }
  }

  lemma {:induction false} AncestorsCompose(sources: map<string, Grant>, g: Grant, m: nat, n: nat)
    requires Ancestor(sources, g, m).Some?
    ensures Ancestor(sources, g, m + n) == Ancestor(sources, Ancestor(sources, g, m).value, n)
    decreases m
  {
    if m > 0 {
      AncestorsCompose(sources, sources[g.delegatedFrom], m - 1, n);
    }
  }

  /** On a cycle the chain goes round for ever. */
  lemma {:induction false} CycleGoesOn(sources: map<string, Grant>, g: Grant, period: nat, n: nat)
    requires period > 0 && Ancestor(sources, g, period) == Some(g)
    ensures Ancestor(sources, g, n).Some?
    decreases n
  {
    if n >= period {
      CycleGoesOn(sources, g, period, n - period);
      AncestorsCompose(sources, g, period, n - period);
    } else if Ancestor(sources, g, n).None? {
      ChainEnds(sources, g, n, period);
      assert false;
    }
  }

  /** A grant that derives from itself, however far round, is refused whatever the hop bound. */
  lemma {:induction false} CycleRefused(sources: map<string, Grant>, g: Grant, period: nat, hops: nat)
    requires period > 0 && Ancestor(sources, g, period) == Some(g)
    ensures !Rooted(sources, g, hops)
  {
    forall n: nat | n <= hops && Ancestor(sources, g, n).Some?
      ensures Ancestor(sources, g, n).value.delegation
    {
      CycleGoesOn(sources, g, period, n + 1);
      AncestorStep(sources, g, n);
    }
  }
}
