/** The four selectors: estate client bindings, commerce profiles, resource assignments and seller bindings. */
module EstateSelection {
  import opened Common
  import opened Selection

  predicate InEffect(status: string, from: int, until: Option<int>, now: int) {
    status == "ACTIVE" && from <= now && (until.None? || now < until.value)
  }

  // ---------------------------------------------------------------------
  // Estate client bindings
  // ---------------------------------------------------------------------

  datatype Binding = Binding(id: string, revision: nat, client: string, estate: string, environment: string,
                             engine: string, status: string, from: int, until: Option<int>)

  datatype BindingRequest = BindingRequest(estate: string, environment: string, engine: string)

  /** A request that names no estate asks nothing of it. */
  function BindingStages(q: BindingRequest, now: int): seq<Stage<Binding>> {
    [ Stage("BINDING_NOT_FOUND", (b: Binding) => q.estate == "" || b.estate == q.estate),
      Stage("ENVIRONMENT_MISMATCH", (b: Binding) => b.environment == q.environment),
      Stage("ENGINE_INSTANCE_NOT_PERMITTED", (b: Binding) => b.engine == q.engine),
      Stage("BINDING_NOT_ACTIVE", (b: Binding) => InEffect(b.status, b.from, b.until, now)) ]
  }

  /** The binding serves the request now. */
  predicate Serves(b: Binding, q: BindingRequest, now: int) {
    && q.estate in {"", b.estate} && b.environment == q.environment && b.engine == q.engine
    && b.status == "ACTIVE" && b.from <= now && (b.until.Some? ==> now < b.until.value)
  }

  /** What each stage asks, and which denial it stands for. */
  lemma {:induction false} BindingStagesMean(q: BindingRequest, now: int, b: Binding)
    ensures var stages := BindingStages(q, now);
            && |stages| == 4
            && (Passes(stages, 1, b) <==> q.estate in {"", b.estate})
            && (Passes(stages, 2, b) <==> q.estate in {"", b.estate} && b.environment == q.environment)
            && (Passes(stages, 3, b) <==>
                  q.estate in {"", b.estate} && b.environment == q.environment && b.engine == q.engine)
            && (Passes(stages, 4, b) <==> Serves(b, q, now))
            && stages[0].denial == "BINDING_NOT_FOUND" && stages[1].denial == "ENVIRONMENT_MISMATCH"
            && stages[2].denial == "ENGINE_INSTANCE_NOT_PERMITTED" && stages[3].denial == "BINDING_NOT_ACTIVE"
  {
    var stages := BindingStages(q, now);
    PassesNext(stages, 0, b);
    PassesNext(stages, 1, b);
    PassesNext(stages, 2, b);
    PassesNext(stages, 3, b);
  }

  lemma {:induction false} PassesNext<T(!new)>(stages: seq<Stage<T>>, n: nat, x: T)
    requires n < |stages|
    ensures Passes(stages, n + 1, x) <==> Passes(stages, n, x) && stages[n].keep(x)
    ensures Passes(stages, 0, x)
  {
  }

  /** The denial a verdict is answered with. */
  function Outcome<T>(stages: seq<Stage<T>>, v: Verdict<T>, none: string, several: string): string
    requires v.Denied? ==> v.stage < |stages|
  {
    match v
    case Attested(_) => "ATTESTED"
    case Empty => none
    case Denied(i) => stages[i].denial
    case Ambiguous(_) => several
  }

  /** One filter of the chain: the candidates it leaves, and what they are of the whole. */
  method Narrow<T(==, !new)>(ghost all: seq<T>, left: seq<T>, stages: seq<Stage<T>>, n: nat) returns (next: seq<T>)
    requires n < |stages| && left == Sift(all, stages, n) && left != []
    ensures next == Sift(all, stages, n + 1)
    ensures next == [] ==> Means(all, stages, Denied(n))
  {
    SiftOnce(all, stages, n);
    SiftLength(all, stages, n);
    SiftLength(all, stages, n + 1);
    next := FilterLoop(left, stages[n].keep);
  }

  method SelectBinding(bindings: seq<Binding>, q: BindingRequest, now: int)
    returns (v: Verdict<Binding>, outcome: string, count: nat)
    ensures Means(bindings, BindingStages(q, now), v)
    ensures outcome == Outcome(BindingStages(q, now), v, "BINDING_NOT_FOUND", "BINDING_AMBIGUOUS")
    ensures count == (if v.Attested? then 1 else if v.Ambiguous? then v.count else 0)
  {
    var stages := BindingStages(q, now);
    SiftNone(bindings, stages);
    if bindings == [] {
      return Empty, "BINDING_NOT_FOUND", 0;
    }
    var candidates := Narrow(bindings, bindings, stages, 0);
    if candidates == [] {
      return Denied(0), "BINDING_NOT_FOUND", 0;
    }
    candidates := Narrow(bindings, candidates, stages, 1);
    if candidates == [] {
      return Denied(1), "ENVIRONMENT_MISMATCH", 0;
    }
    candidates := Narrow(bindings, candidates, stages, 2);
    if candidates == [] {
      return Denied(2), "ENGINE_INSTANCE_NOT_PERMITTED", 0;
    }
    candidates := Narrow(bindings, candidates, stages, 3);
    if candidates == [] {
      return Denied(3), "BINDING_NOT_ACTIVE", 0;
    }
    Judge(bindings, stages, candidates);
    if |candidates| > 1 {
      return Ambiguous(|candidates|), "BINDING_AMBIGUOUS", |candidates|;
    }
    return Attested(candidates[0]), "ATTESTED", 1;
  }

  // ---------------------------------------------------------------------
  // Commerce profiles
  // ---------------------------------------------------------------------

  datatype Profile = Profile(id: string, revision: nat, estate: string, engine: string, markets: seq<string>,
                             model: string, status: string, from: int, until: Option<int>)

  datatype ProfileRequest = ProfileRequest(engine: string, market: string)

  function ProfileStages(q: ProfileRequest, now: int): seq<Stage<Profile>> {
    [ Stage("ENGINE_INSTANCE_NOT_PERMITTED", (p: Profile) => p.engine == q.engine),
      Stage("PROFILE_NOT_REGISTERED", (p: Profile) => q.market in p.markets),
      Stage("PROFILE_NOT_ACTIVE", (p: Profile) => InEffect(p.status, p.from, p.until, now)) ]
  }

  /** The profile classifies the estate on this engine and market now. */
  predicate Classifies(p: Profile, q: ProfileRequest, now: int) {
    && p.engine == q.engine && q.market in p.markets
    && p.status == "ACTIVE" && p.from <= now && (p.until.Some? ==> now < p.until.value)
  }

  lemma {:induction false} ProfileStagesMean(q: ProfileRequest, now: int, p: Profile)
    ensures var stages := ProfileStages(q, now);
            && |stages| == 3
            && (Passes(stages, 1, p) <==> p.engine == q.engine)
            && (Passes(stages, 2, p) <==> p.engine == q.engine && q.market in p.markets)
            && (Passes(stages, 3, p) <==> Classifies(p, q, now))
            && stages[0].denial == "ENGINE_INSTANCE_NOT_PERMITTED" && stages[1].denial == "PROFILE_NOT_REGISTERED"
            && stages[2].denial == "PROFILE_NOT_ACTIVE"
  {
    var stages := ProfileStages(q, now);
    PassesNext(stages, 0, p);
    PassesNext(stages, 1, p);
    PassesNext(stages, 2, p);
  }

  method SelectProfile(profiles: seq<Profile>, q: ProfileRequest, now: int)
    returns (v: Verdict<Profile>, outcome: string, count: nat)
    ensures Means(profiles, ProfileStages(q, now), v)
    ensures outcome == Outcome(ProfileStages(q, now), v, "PROFILE_NOT_REGISTERED", "PROFILE_AMBIGUOUS")
    ensures count == (if v.Attested? then 1 else if v.Ambiguous? then v.count else 0)
  {
    var stages := ProfileStages(q, now);
    SiftNone(profiles, stages);
    if profiles == [] {
      return Empty, "PROFILE_NOT_REGISTERED", 0;
    }
    var candidates := Narrow(profiles, profiles, stages, 0);
    if candidates == [] {
      return Denied(0), "ENGINE_INSTANCE_NOT_PERMITTED", 0;
    }
    candidates := Narrow(profiles, candidates, stages, 1);
    if candidates == [] {
      return Denied(1), "PROFILE_NOT_REGISTERED", 0;
    }
    candidates := Narrow(profiles, candidates, stages, 2);
    if candidates == [] {
      return Denied(2), "PROFILE_NOT_ACTIVE", 0;
    }
    Judge(profiles, stages, candidates);
    if |candidates| > 1 {
      return Ambiguous(|candidates|), "PROFILE_AMBIGUOUS", |candidates|;
    }
    return Attested(candidates[0]), "ATTESTED", 1;
  }

  // ---------------------------------------------------------------------
  // Resource assignments
  // ---------------------------------------------------------------------

  datatype Assignment = Assignment(id: string, revision: nat, estate: string, engine: string, markets: seq<string>,
                                   operations: seq<string>, status: string, from: int, until: Option<int>)

  datatype AssignmentRequest = AssignmentRequest(engine: string, market: string, operation: string)

  function AssignmentStages(q: AssignmentRequest, now: int): seq<Stage<Assignment>> {
    [ Stage("ENGINE_INSTANCE_NOT_PERMITTED", (a: Assignment) => a.engine == q.engine),
      Stage("ASSIGNMENT_NOT_ACTIVE", (a: Assignment) => InEffect(a.status, a.from, a.until, now)),
      Stage("MARKET_NOT_PERMITTED", (a: Assignment) => q.market in a.markets),
      Stage("OPERATION_NOT_PERMITTED", (a: Assignment) => q.operation in a.operations) ]
  }

  /** The assignment permits the operation on this engine and market now. */
  predicate Permits(a: Assignment, q: AssignmentRequest, now: int) {
    && a.engine == q.engine && a.status == "ACTIVE" && a.from <= now && (a.until.Some? ==> now < a.until.value)
    && q.market in a.markets && q.operation in a.operations
  }

  lemma {:induction false} AssignmentStagesMean(q: AssignmentRequest, now: int, a: Assignment)
    ensures var stages := AssignmentStages(q, now);
            var live := a.status == "ACTIVE" && a.from <= now && (a.until.Some? ==> now < a.until.value);
            && |stages| == 4
            && (Passes(stages, 1, a) <==> a.engine == q.engine)
            && (Passes(stages, 2, a) <==> a.engine == q.engine && live)
            && (Passes(stages, 3, a) <==> a.engine == q.engine && live && q.market in a.markets)
            && (Passes(stages, 4, a) <==> Permits(a, q, now))
            && stages[0].denial == "ENGINE_INSTANCE_NOT_PERMITTED" && stages[1].denial == "ASSIGNMENT_NOT_ACTIVE"
            && stages[2].denial == "MARKET_NOT_PERMITTED" && stages[3].denial == "OPERATION_NOT_PERMITTED"
  {
    var stages := AssignmentStages(q, now);
    PassesNext(stages, 0, a);
    PassesNext(stages, 1, a);
    PassesNext(stages, 2, a);
    PassesNext(stages, 3, a);
  }

  method SelectAssignment(candidates: seq<Assignment>, q: AssignmentRequest, now: int)
    returns (v: Verdict<Assignment>, outcome: string, count: nat)
    ensures Means(candidates, AssignmentStages(q, now), v)
    ensures outcome == Outcome(AssignmentStages(q, now), v, "ASSIGNMENT_NOT_FOUND", "ASSIGNMENT_AMBIGUOUS")
    ensures count == (if v.Attested? then 1 else if v.Ambiguous? then v.count else 0)
  {
    v := Select(candidates, AssignmentStages(q, now));
    outcome := Outcome(AssignmentStages(q, now), v, "ASSIGNMENT_NOT_FOUND", "ASSIGNMENT_AMBIGUOUS");
    count := if v.Attested? then 1 else if v.Ambiguous? then v.count else 0;
  }

  // ---------------------------------------------------------------------
  // Seller operating bindings, in one pass
  // ---------------------------------------------------------------------

  datatype SellerBinding = SellerBinding(id: string, version: nat, tenant: string, organisation: string, market: string,
                                         engine: string, currencies: seq<string>, digest: string, entity: string,
                                         status: string, from: int, until: Option<int>)

  function SellerStages(digest: string, at: int): seq<Stage<SellerBinding>> {
    [ Stage("BINDING_NOT_ACTIVE", (b: SellerBinding) => InEffect(b.status, b.from, b.until, at)),
      Stage("NATIVE_CONFIGURATION_MISMATCH", (b: SellerBinding) => b.digest == digest) ]
  }

  lemma {:induction false} SellerStagesMean(digest: string, at: int, b: SellerBinding)
    ensures var stages := SellerStages(digest, at);
            var live := b.status == "ACTIVE" && b.from <= at && (b.until.Some? ==> at < b.until.value);
            && |stages| == 2
            && (Passes(stages, 1, b) <==> live)
            && (Passes(stages, 2, b) <==> live && b.digest == digest)
            && stages[0].denial == "BINDING_NOT_ACTIVE" && stages[1].denial == "NATIVE_CONFIGURATION_MISMATCH"
  {
    var stages := SellerStages(digest, at);
    PassesNext(stages, 0, b);
    PassesNext(stages, 1, b);
  }

  lemma {:induction false} SiftAppend<T(!new)>(s: seq<T>, x: T, stages: seq<Stage<T>>, n: nat)
    requires n <= |stages|
    ensures Sift(s + [x], stages, n) == Sift(s, stages, n) + if Passes(stages, n, x) then [x] else []
    decreases |s|
  {
    if s == [] {
      assert s + [x] == [x];
      assert [x][1..] == [];
    } else {
      SiftAppend(s[1..], x, stages, n);
      assert (s + [x])[1..] == s[1..] + [x];
    }
  }

  /** The single loop reaches the verdict that staged narrowing reaches. */
  method ResolveSeller(candidates: seq<SellerBinding>, digest: string, at: int)
    returns (v: Verdict<SellerBinding>, outcome: string)
    ensures Means(candidates, SellerStages(digest, at), v)
    ensures outcome == (if v.Attested? then "RESOLVED"
                        else Outcome(SellerStages(digest, at), v, "NO_APPLICABLE_BINDING", "AMBIGUOUS_BINDING"))
  {
    if candidates == [] {
      return Empty, "NO_APPLICABLE_BINDING";
    }
    var stages := SellerStages(digest, at);
    var live, exact := [], [];
    for i := 0 to |candidates|
      invariant live == Sift(candidates[..i], stages, 1)
      invariant exact == Sift(candidates[..i], stages, 2)
    {
      var b := candidates[i];
      SiftAppend(candidates[..i], b, stages, 1);
      SiftAppend(candidates[..i], b, stages, 2);
      assert candidates[..i + 1] == candidates[..i] + [b];
      PassesNext(stages, 0, b);
      PassesNext(stages, 1, b);
      if InEffect(b.status, b.from, b.until, at) {
        live := live + [b];
        if b.digest == digest {
          exact := exact + [b];
        }
      }
    }
    assert candidates[..|candidates|] == candidates;
    SiftLength(candidates, stages, 1);
    SiftLength(candidates, stages, 2);
    SiftNone(candidates, stages);
    SiftLength(candidates, stages, 0);
    if live == [] {
      return Denied(0), "BINDING_NOT_ACTIVE";
    }
    if exact == [] {
      return Denied(1), "NATIVE_CONFIGURATION_MISMATCH";
    }
    Judge(candidates, stages, exact);
    if |exact| > 1 {
      return Ambiguous(|exact|), "AMBIGUOUS_BINDING";
    }
    return Attested(exact[0]), "RESOLVED";
  }
}
