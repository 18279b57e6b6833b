/**
 The record of resolutions, and what a commerce attestation rests on: an attestation of the
 estate this caller obtained before, re-verified from the record. Nothing is disclosed that
 was not recorded first.
 */
module Provenance {
  import opened Common
  import opened Selection
  import opened EstateSelection
  import opened Attestation

  datatype Kind = ClientBinding | ResourceAssignment | OtherKind

  datatype BindingRecord = BindingRecord(caller: string, engine: string, outcome: string, binding: string,
                                         revision: nat, resolvedAt: int)

  datatype AssignmentRecord = AssignmentRecord(caller: string, attestation: string, estate: string, engine: string,
                                               market: string, outcome: string, assignment: string, revision: nat,
                                               resolvedAt: int, expires: int)

  datatype CommerceRecord = CommerceRecord(caller: string, attestation: string, estate: string, engine: string,
                                           market: string, kind: Kind, reference: string, outcome: string,
                                           profile: string, resolvedAt: int, expires: int)


  datatype Answer<R> = Disclosed(record: R, window: Window) | Denied(code: string) | Unavailable

  datatype CommerceRequest = CommerceRequest(caller: string, estate: string, engine: string, market: string, kind: Kind,
                                             reference: string)

  // ---------------------------------------------------------------------
  // Provenance, from the record
  // ---------------------------------------------------------------------

  predicate BindingProves(r: BindingRecord, b: Binding, q: CommerceRequest, since: int) {
    && r.outcome == "ATTESTED" && r.caller == q.caller && r.binding == q.reference && r.engine == q.engine
    && b.id == r.binding && b.estate == q.estate && b.engine == q.engine && b.status == "ACTIVE"
    && b.revision == r.revision
    && since <= r.resolvedAt
  }

  predicate AssignmentProves(r: AssignmentRecord, a: Assignment, q: CommerceRequest, now: int) {
    && r.outcome == "ATTESTED" && r.attestation == q.reference && r.caller == q.caller
    && r.estate == q.estate && r.engine == q.engine && r.market == q.market && now < r.expires
    && a.id == r.assignment && a.status == "ACTIVE" && a.revision == r.revision
  }

  /** What the stores say of the provenance a caller shows. */
  predicate Proven(bindingRecords: seq<BindingRecord>, bindings: seq<Binding>, assignmentRecords: seq<AssignmentRecord>,
                   assignments: seq<Assignment>, q: CommerceRequest, now: int) {
    match q.kind
    case ClientBinding =>
      exists r, b :: r in bindingRecords && b in bindings && BindingProves(r, b, q, now - PROVENANCE_WINDOW)
    case ResourceAssignment =>
      exists r, a :: r in assignmentRecords && a in assignments && AssignmentProves(r, a, q, now)
    case OtherKind => false
  }

  /**
   A binding of the estate and engine that is ACTIVE at the revision this caller obtained an
   attestation of in the last minute.
   */
  ghost predicate BindingVouches(records: seq<BindingRecord>, bindings: seq<Binding>, q: CommerceRequest, now: int) {
    exists r, b ::
      && r in records && b in bindings
      && b.id == q.reference && b.estate == q.estate && b.engine == q.engine && b.status == "ACTIVE"
      && r == BindingRecord(q.caller, b.engine, "ATTESTED", b.id, b.revision, r.resolvedAt)
      && now <= r.resolvedAt + 60 * SECOND
  }

  /**
   An attestation this caller obtained for the estate, engine and market, unexpired, of an
   assignment ACTIVE at the revision attested.
   */
  ghost predicate AssignmentVouches(records: seq<AssignmentRecord>, assignments: seq<Assignment>, q: CommerceRequest,
                                    now: int) {
    exists r, a ::
      && r in records && a in assignments && a.status == "ACTIVE"
      && r == AssignmentRecord(q.caller, q.reference, q.estate, q.engine, q.market, "ATTESTED", a.id, a.revision,
                               r.resolvedAt, r.expires)
      && now < r.expires
  }

  lemma {:induction false} ProvenExactly(bindingRecords: seq<BindingRecord>, bindings: seq<Binding>,
                                         assignmentRecords: seq<AssignmentRecord>, assignments: seq<Assignment>,
                                         q: CommerceRequest, now: int)
    ensures Proven(bindingRecords, bindings, assignmentRecords, assignments, q, now) <==>
            || (q.kind == ClientBinding && BindingVouches(bindingRecords, bindings, q, now))
            || (q.kind == ResourceAssignment && AssignmentVouches(assignmentRecords, assignments, q, now))
  {
    match q.kind
    case ClientBinding =>
      if r, b :| r in bindingRecords && b in bindings && BindingProves(r, b, q, now - PROVENANCE_WINDOW) {
        assert r == BindingRecord(q.caller, b.engine, "ATTESTED", b.id, b.revision, r.resolvedAt);
      }
      if BindingVouches(bindingRecords, bindings, q, now) {
        var r, b :| && r in bindingRecords && b in bindings
                    && b.id == q.reference && b.estate == q.estate && b.engine == q.engine && b.status == "ACTIVE"
                    && r == BindingRecord(q.caller, b.engine, "ATTESTED", b.id, b.revision, r.resolvedAt)
                    && now <= r.resolvedAt + 60 * SECOND;
        assert BindingProves(r, b, q, now - PROVENANCE_WINDOW);
      }
    case ResourceAssignment =>
      if r, a :| r in assignmentRecords && a in assignments && AssignmentProves(r, a, q, now) {
        assert r == AssignmentRecord(q.caller, q.reference, q.estate, q.engine, q.market, "ATTESTED", a.id, a.revision,
                                     r.resolvedAt, r.expires);
      }
      if AssignmentVouches(assignmentRecords, assignments, q, now) {
        var r, a :| && r in assignmentRecords && a in assignments && a.status == "ACTIVE"
                    && r == AssignmentRecord(q.caller, q.reference, q.estate, q.engine, q.market, "ATTESTED", a.id,
                                             a.revision, r.resolvedAt, r.expires)
                    && now < r.expires;
        assert AssignmentProves(r, a, q, now);
      }
    case OtherKind =>
  }

  /**
   The commerce attestation rests on a recorded one of the same caller and engine, and does not
   outlast it by more than its own life.
   */
  ghost predicate Rests(bindings: seq<BindingRecord>, assignments: seq<AssignmentRecord>, c: CommerceRecord) {
    match c.kind
    case ClientBinding =>
      exists r :: r in bindings && r.outcome == "ATTESTED" && r.caller == c.caller && r.binding == c.reference
                  && r.engine == c.engine
                  && c.expires <= r.resolvedAt + 120 * SECOND
    case ResourceAssignment =>
      exists r :: r in assignments && r.outcome == "ATTESTED" && r.attestation == c.reference && r.caller == c.caller
                  && r.estate == c.estate && r.engine == c.engine && r.market == c.market
                  && c.resolvedAt < r.expires && c.expires <= r.resolvedAt + 120 * SECOND
    case OtherKind => false
  }

  ghost predicate AssignmentsBrief(assignments: seq<AssignmentRecord>) {
    forall r :: r in assignments && r.outcome == "ATTESTED" ==> r.resolvedAt < r.expires <= r.resolvedAt + 60 * SECOND
  }

  ghost predicate CommerceRests(bindings: seq<BindingRecord>, assignments: seq<AssignmentRecord>,
                                commerce: seq<CommerceRecord>) {
    forall c :: c in commerce && c.outcome == "ATTESTED" ==>
      c.resolvedAt < c.expires <= c.resolvedAt + 60 * SECOND && Rests(bindings, assignments, c)
  }

  /** Records are only ever added, and what rests on one goes on resting on it. */
  lemma {:induction false} StillRests(bindings: seq<BindingRecord>, assignments: seq<AssignmentRecord>,
                                      c: CommerceRecord, more: seq<BindingRecord>, further: seq<AssignmentRecord>)
    requires Rests(bindings, assignments, c) && bindings <= more && assignments <= further
    ensures Rests(more, further, c)
  {
    assert forall r :: r in bindings ==> r in more;
    assert forall r :: r in assignments ==> r in further;
  }

  lemma {:induction false} AllStillRest(bindings: seq<BindingRecord>, assignments: seq<AssignmentRecord>,
                                        commerce: seq<CommerceRecord>, more: seq<BindingRecord>,
                                        further: seq<AssignmentRecord>)
    requires CommerceRests(bindings, assignments, commerce) && bindings <= more && assignments <= further
    ensures CommerceRests(more, further, commerce)
  {
    forall c | c in commerce && c.outcome == "ATTESTED"
      ensures Rests(more, further, c)
    {
      StillRests(bindings, assignments, c, more, further);
    }
  }

  // ---------------------------------------------------------------------
  // When an attestation is due
  // ---------------------------------------------------------------------

  function OfClient(bindings: seq<Binding>, client: string): seq<Binding> {
    Filter(bindings, (b: Binding) => b.client == client)
  }

  function OfEstate(profiles: seq<Profile>, estate: string): seq<Profile> {
    Filter(profiles, (p: Profile) => p.estate == estate)
  }

  /**
   In this deployment, one binding of the client satisfies every stage, and the evidence
   outlasts the current second.
   */
  ghost predicate BindingAttestable(bindings: seq<Binding>, client: string, deployment: string, q: BindingRequest,
                                    now: int, bounds: set<int>) {
    && q.environment == deployment
    && (exists b :: Means(OfClient(bindings, client), BindingStages(q, now), Verdict.Attested(b)))
    && Lasts(now, bounds)
  }

  /** One assignment satisfies every stage, and it and the evidence outlast the current second. */
  ghost predicate AssignmentAttestable(candidates: seq<Assignment>, q: AssignmentRequest, now: int,
                                       evidence: Option<int>) {
    exists a :: Means(candidates, AssignmentStages(q, now), Verdict.Attested(a))
                && Lasts(now, Bounds(a.until) + Bounds(evidence))
  }

  /** One profile of the estate satisfies every stage and outlasts the current second. */
  ghost predicate ProfileAttestable(profiles: seq<Profile>, q: CommerceRequest, now: int) {
    exists p :: Means(OfEstate(profiles, q.estate), ProfileStages(ProfileRequest(q.engine, q.market), now),
                      Verdict.Attested(p))
                && Lasts(now, Bounds(p.until))
  }

  function DeniedAssignment(caller: string, estate: string, q: AssignmentRequest, code: string,
                            now: int): AssignmentRecord {
    AssignmentRecord(caller, "", estate, q.engine, q.market, code, "", 0, now, now)
  }

  function DeniedCommerce(q: CommerceRequest, code: string, now: int): CommerceRecord {
    CommerceRecord(q.caller, "", q.estate, q.engine, q.market, q.kind, q.reference, code, "", now, now)
  }

  /** A selector's verdict is the only one. */
  lemma {:induction false} OnlyVerdict<T(!new)>(s: seq<T>, stages: seq<Stage<T>>, v: Verdict<T>)
    requires Means(s, stages, v)
    ensures forall x :: Means(s, stages, Verdict.Attested(x)) ==> v == Verdict.Attested(x)
  {
    forall x | Means(s, stages, Verdict.Attested(x))
      ensures v == Verdict.Attested(x)
    {
      MeansOne(s, stages, v, Verdict.Attested(x));
    }
  }

  // ---------------------------------------------------------------------
  // The handlers over the store
  // ---------------------------------------------------------------------

  class Store {
    var bindings: seq<Binding>
    var assignments: seq<Assignment>
    var profiles: seq<Profile>
    var bindingRecords: seq<BindingRecord>
    var assignmentRecords: seq<AssignmentRecord>
    var commerceRecords: seq<CommerceRecord>

    ghost predicate Valid()
      reads this
    {
      AssignmentsBrief(assignmentRecords) && CommerceRests(bindingRecords, assignmentRecords, commerceRecords)
    }

    constructor ()
      ensures Valid() && bindingRecords == [] && assignmentRecords == [] && commerceRecords == []
    {
      bindings, assignments, profiles, bindingRecords, assignmentRecords, commerceRecords := [], [], [], [], [], [];
    }

    /** Governance may change what is registered in any way, at any time. */
    method Govern(b: seq<Binding>, a: seq<Assignment>, p: seq<Profile>)
      requires Valid()
      modifies this`bindings, this`assignments, this`profiles
      ensures Valid() && bindings == b && assignments == a && profiles == p
    {
      bindings, assignments, profiles := b, a, p;
    }

    method RecordBinding(r: BindingRecord)
      requires Valid()
      modifies this`bindingRecords
      ensures Valid() && bindingRecords == old(bindingRecords) + [r]
    {
      AllStillRest(bindingRecords, assignmentRecords, commerceRecords, bindingRecords + [r], assignmentRecords);
      bindingRecords := bindingRecords + [r];
    }

    /** A denial is recorded if it can be, and denies either way. */
    method DenyBinding(caller: string, engine: string, code: string, now: int, stored: bool)
      requires Valid() && code != "ATTESTED"
      modifies this`bindingRecords
      ensures Valid()
      ensures bindingRecords == old(bindingRecords) +
              if stored then [BindingRecord(caller, engine, code, "", 0, now)] else []
    {
      if stored {
        RecordBinding(BindingRecord(caller, engine, code, "", 0, now));
      }
    }

    /**
     Resolve the binding of the client whose evidence was verified, in this deployment's
     environment; token and introspection give the evidence's expiry. `stored` is whether
     the record could be written.
     */
    method ResolveBinding(caller: string, client: string, deployment: string, q: BindingRequest, now: int,
                          tokenExpires: int, introspected: Option<int>, stored: bool)
      returns (answer: Answer<BindingRecord>)
      requires Valid()
      modifies this`bindingRecords
      ensures Valid()
      ensures var good := BindingAttestable(bindings, client, deployment, q, now,
                                            {tokenExpires} + Bounds(introspected));
              (answer.Disclosed? <==> good && stored) && (answer.Unavailable? <==> good && !stored)
      ensures answer.Disclosed? ==>
                && bindingRecords == old(bindingRecords) + [answer.record]
                && Proper(now, {tokenExpires} + Bounds(introspected), answer.window)
                && exists b :: b in bindings && b.client == client
                               && answer.record == BindingRecord(caller, q.engine, "ATTESTED", b.id, b.revision, now)
                               && Means(OfClient(bindings, client), BindingStages(q, now), Verdict.Attested(b))
                               && b.environment == deployment && Serves(b, q, now)
      ensures answer.Denied? && q.environment != deployment ==> answer.code == "ENVIRONMENT_MISMATCH"
      ensures answer.Denied? && q.environment == deployment ==>
                exists v :: Means(OfClient(bindings, client), BindingStages(q, now), v)
                            && answer.code == if v.Attested? then "CLIENT_EVIDENCE_INVALID" else
                               Outcome(BindingStages(q, now), v, "BINDING_NOT_FOUND", "BINDING_AMBIGUOUS")
      ensures answer.Denied? ==>
                && answer.code != "ATTESTED"
                && bindingRecords == old(bindingRecords) +
                  if stored then [BindingRecord(caller, q.engine, answer.code, "", 0, now)] else []
      ensures answer.Unavailable? ==> bindingRecords == old(bindingRecords)
    {
      if q.environment != deployment {
        DenyBinding(caller, q.engine, "ENVIRONMENT_MISMATCH", now, stored);
        return Answer.Denied("ENVIRONMENT_MISMATCH");
      }
      var ofClient := FilterLoop(bindings, (b: Binding) => b.client == client);
      var v, outcome, _ := SelectBinding(ofClient, q, now);
      OnlyVerdict(ofClient, BindingStages(q, now), v);
      if outcome != "ATTESTED" {
        DenyBinding(caller, q.engine, outcome, now, stored);
        return Answer.Denied(outcome);
      }
      var window := BindingWindow(now, tokenExpires, introspected);
      if window.None? {
        DenyBinding(caller, q.engine, "CLIENT_EVIDENCE_INVALID", now, stored);
        return Answer.Denied("CLIENT_EVIDENCE_INVALID");
      }
      if !stored {
        return Unavailable;
      }
      var record := BindingRecord(caller, q.engine, "ATTESTED", v.chosen.id, v.chosen.revision, now);
      FilterMember(bindings, (b: Binding) => b.client == client, v.chosen);
      BindingStagesMean(q, now, v.chosen);
      RecordBinding(record);
      return Disclosed(record, window.value);
    }

    method RecordAssignment(r: AssignmentRecord)
      requires Valid() && (r.outcome == "ATTESTED" ==> r.resolvedAt < r.expires <= r.resolvedAt + 60 * SECOND)
      modifies this`assignmentRecords
      ensures Valid() && assignmentRecords == old(assignmentRecords) + [r]
    {
      AllStillRest(bindingRecords, assignmentRecords, commerceRecords, bindingRecords, assignmentRecords + [r]);
      assignmentRecords := assignmentRecords + [r];
    }

    method DenyAssignment(caller: string, estate: string, q: AssignmentRequest, code: string, now: int, stored: bool)
      requires Valid() && code != "ATTESTED"
      modifies this`assignmentRecords
      ensures Valid()
      ensures assignmentRecords == old(assignmentRecords) +
              if stored then [DeniedAssignment(caller, estate, q, code, now)] else []
    {
      if stored {
        RecordAssignment(DeniedAssignment(caller, estate, q, code, now));
      }
    }

    /**
     Resolve the assignment of a subject; `evidence` is the workload evidence's expiry, if it was
     workload evidence.
     */
    method ResolveAssignment(caller: string, estate: string, attestation: string, candidates: seq<Assignment>,
                             q: AssignmentRequest, now: int, evidence: Option<int>, stored: bool)
      returns (answer: Answer<AssignmentRecord>)
      requires Valid()
      modifies this`assignmentRecords
      ensures Valid()
      ensures var good := AssignmentAttestable(candidates, q, now, evidence);
              (answer.Disclosed? <==> good && stored) && (answer.Unavailable? <==> good && !stored)
      ensures answer.Disclosed? ==>
                && assignmentRecords == old(assignmentRecords) + [answer.record]
                && exists a :: a in candidates && Means(candidates, AssignmentStages(q, now), Verdict.Attested(a))
                               && Permits(a, q, now)
                               && Proper(now, Bounds(a.until) + Bounds(evidence), answer.window)
                               && answer.record == AssignmentRecord(caller, attestation, estate, q.engine, q.market,
                                                                    "ATTESTED", a.id, a.revision, now,
                                                                    answer.window.expires)
      ensures answer.Denied? ==>
                exists v :: Means(candidates, AssignmentStages(q, now), v)
                            && answer.code == if v.Attested? then "ASSIGNMENT_NOT_ACTIVE" else
                               Outcome(AssignmentStages(q, now), v, "ASSIGNMENT_NOT_FOUND", "ASSIGNMENT_AMBIGUOUS")
      ensures answer.Denied? ==>
                && answer.code != "ATTESTED"
                && assignmentRecords == old(assignmentRecords) +
                   if stored then [DeniedAssignment(caller, estate, q, answer.code, now)] else []
      ensures answer.Unavailable? ==> assignmentRecords == old(assignmentRecords)
    {
      var v, outcome, _ := SelectAssignment(candidates, q, now);
      OnlyVerdict(candidates, AssignmentStages(q, now), v);
      if outcome != "ATTESTED" {
        DenyAssignment(caller, estate, q, outcome, now, stored);
        return Answer.Denied(outcome);
      }
      var window := AssignmentWindow(now, v.chosen.until, evidence);
      if window.None? {
        DenyAssignment(caller, estate, q, "ASSIGNMENT_NOT_ACTIVE", now, stored);
        return Answer.Denied("ASSIGNMENT_NOT_ACTIVE");
      }
      if !stored {
        return Unavailable;
      }
      var record := AssignmentRecord(caller, attestation, estate, q.engine, q.market, "ATTESTED", v.chosen.id,
                                     v.chosen.revision, now, window.value.expires);
      AssignmentStagesMean(q, now, v.chosen);
      RecordAssignment(record);
      return Disclosed(record, window.value);
    }

    method RecordCommerce(r: CommerceRecord)
      requires Valid()
      requires r.outcome == "ATTESTED" ==>
                 r.resolvedAt < r.expires <= r.resolvedAt + 60 * SECOND && Rests(bindingRecords, assignmentRecords, r)
      modifies this`commerceRecords
      ensures Valid() && commerceRecords == old(commerceRecords) + [r]
    {
      commerceRecords := commerceRecords + [r];
    }

    method DenyCommerce(q: CommerceRequest, code: string, now: int, stored: bool)
      requires Valid() && code != "ATTESTED"
      modifies this`commerceRecords
      ensures Valid()
      ensures commerceRecords == old(commerceRecords) + if stored then [DeniedCommerce(q, code, now)] else []
    {
      if stored {
        RecordCommerce(DeniedCommerce(q, code, now));
      }
    }

    /** Classify an estate for a caller that shows where it acts for it. */
    method ResolveCommerce(q: CommerceRequest, attestation: string, now: int, stored: bool)
      returns (answer: Answer<CommerceRecord>)
      requires Valid()
      modifies this`commerceRecords
      ensures Valid()
      ensures var shown :=
                || (q.kind == ClientBinding && BindingVouches(bindingRecords, bindings, q, now))
                || (q.kind == ResourceAssignment && AssignmentVouches(assignmentRecords, assignments, q, now));
              var good := shown && ProfileAttestable(profiles, q, now);
              && (answer.Disclosed? <==> good && stored) && (answer.Unavailable? <==> good && !stored)
              && (!shown ==> answer == Answer.Denied("ESTATE_PROVENANCE_INVALID"))
              && (shown && answer.Denied? ==>
                    var stages := ProfileStages(ProfileRequest(q.engine, q.market), now);
                    exists v :: Means(OfEstate(profiles, q.estate), stages, v)
                                && answer.code == if v.Attested? then "PROFILE_NOT_ACTIVE" else
                                  Outcome(stages, v, "PROFILE_NOT_REGISTERED", "PROFILE_AMBIGUOUS"))
      ensures answer.Disclosed? ==>
                && commerceRecords == old(commerceRecords) + [answer.record]
                && Rests(bindingRecords, assignmentRecords, answer.record)
                && exists p :: p in profiles && p.estate == q.estate && Proper(now, Bounds(p.until), answer.window)
                               && Classifies(p, ProfileRequest(q.engine, q.market), now)
                               && Means(OfEstate(profiles, q.estate),
                                        ProfileStages(ProfileRequest(q.engine, q.market), now), Verdict.Attested(p))
                               && answer.record == CommerceRecord(q.caller, attestation, q.estate, q.engine, q.market,
                                                                  q.kind, q.reference, "ATTESTED", p.id, now,
                                                                  answer.window.expires)
      ensures answer.Denied? ==>
                && answer.code != "ATTESTED"
                && commerceRecords == old(commerceRecords) +
                  if stored then [DeniedCommerce(q, answer.code, now)] else []
      ensures answer.Unavailable? ==> commerceRecords == old(commerceRecords)
    {
      ProvenExactly(bindingRecords, bindings, assignmentRecords, assignments, q, now);
      if !Proven(bindingRecords, bindings, assignmentRecords, assignments, q, now) {
        DenyCommerce(q, "ESTATE_PROVENANCE_INVALID", now, stored);
        return Answer.Denied("ESTATE_PROVENANCE_INVALID");
      }
      var ofEstate := FilterLoop(profiles, (p: Profile) => p.estate == q.estate);
      var v, outcome, _ := SelectProfile(ofEstate, ProfileRequest(q.engine, q.market), now);
      OnlyVerdict(ofEstate, ProfileStages(ProfileRequest(q.engine, q.market), now), v);
      if outcome != "ATTESTED" {
        DenyCommerce(q, outcome, now, stored);
        return Answer.Denied(outcome);
      }
      var window := ProfileWindow(now, v.chosen.until);
      if window.None? {
        DenyCommerce(q, "PROFILE_NOT_ACTIVE", now, stored);
        return Answer.Denied("PROFILE_NOT_ACTIVE");
      }
      if !stored {
        return Unavailable;
      }
      var record := CommerceRecord(q.caller, attestation, q.estate, q.engine, q.market, q.kind, q.reference, "ATTESTED",
                                   v.chosen.id, now, window.value.expires);
      ProvenRests(bindingRecords, assignmentRecords, bindings, assignments, q, record, now);
      FilterMember(profiles, (p: Profile) => p.estate == q.estate, v.chosen);
      ProfileStagesMean(ProfileRequest(q.engine, q.market), now, v.chosen);
      RecordCommerce(record);
      return Disclosed(record, window.value);
    }
  }

  lemma {:induction false} FilterMember<T>(s: seq<T>, keep: T -> bool, x: T)
    requires x in Filter(s, keep)
    ensures x in s && keep(x)
    decreases |s|
  {
    if !(keep(s[0]) && x == s[0]) {
      FilterMember(s[1..], keep, x);
    }
  }

  lemma {:induction false} ProvenRests(records: seq<BindingRecord>, others: seq<AssignmentRecord>,
                                       bindings: seq<Binding>, assignments: seq<Assignment>, q: CommerceRequest,
                                       c: CommerceRecord, now: int)
    requires AssignmentsBrief(others)
    requires Proven(records, bindings, others, assignments, q, now)
    requires c.caller == q.caller && c.kind == q.kind && c.reference == q.reference && c.estate == q.estate
    requires c.engine == q.engine && c.market == q.market && c.resolvedAt == now && c.expires <= now + 60 * SECOND
    ensures Rests(records, others, c)
  {
    if q.kind == ClientBinding {
      var r, b :| r in records && b in bindings && BindingProves(r, b, q, now - PROVENANCE_WINDOW);
      assert c.expires <= r.resolvedAt + 120 * SECOND;
    } else {
      var r, a :| r in others && a in assignments && AssignmentProves(r, a, q, now);
      assert c.expires <= r.resolvedAt + 120 * SECOND;
    }
  }

  // ---------------------------------------------------------------------
  // A binding attestation that is no longer in force
  // ---------------------------------------------------------------------

  /**
   What the provenance query leaves open. A recorded binding attestation proves provenance
   for a minute, whatever its evidence allowed; it is still in force then exactly when the
   evidence, and its own longest life, outlast the second of the commerce request.
   */
  lemma {:induction false} ProvenInForceExactlyWhen(r: BindingRecord, b: Binding, q: CommerceRequest, bounds: set<int>,
                                                    w: Window, now: int)
    requires Proper(r.resolvedAt, bounds, w) && BindingProves(r, b, q, now - PROVENANCE_WINDOW)
    ensures now < w.expires <==> Lasts(now, bounds) && Truncate(now) + SECOND <= r.resolvedAt + 60 * SECOND
    ensures now <= r.resolvedAt + PROVENANCE_WINDOW
  {
    InForceExactlyWhen(r.resolvedAt, bounds, w, now);
  }

  lemma {:induction false} AloneAttested<T(!new)>(x: T, stages: seq<Stage<T>>)
    requires Passes(stages, |stages|, x)
    ensures Means([x], stages, Verdict.Attested(x))
  {
    assert [x][1..] == [];
  }

  lemma {:induction false} AloneKept<T>(x: T, keep: T -> bool)
    requires keep(x)
    ensures Filter([x], keep) == [x]
  {
    FilterPrepend(x, [], keep);
    assert [x] + [] == [x];
  }

  lemma {:induction false} OneBinding(b: Binding, q: BindingRequest, now: int)
    requires Passes(BindingStages(q, now), 4, b)
    ensures Means(OfClient([b], b.client), BindingStages(q, now), Verdict.Attested(b))
  {
    AloneKept(b, (x: Binding) => x.client == b.client);
    AloneAttested(b, BindingStages(q, now));
  }

  lemma {:induction false} OneProfile(p: Profile, q: CommerceRequest, now: int)
    requires p.estate == q.estate && Passes(ProfileStages(ProfileRequest(q.engine, q.market), now), 3, p)
    ensures Means(OfEstate([p], q.estate), ProfileStages(ProfileRequest(q.engine, q.market), now), Verdict.Attested(p))
  {
    AloneKept(p, (x: Profile) => x.estate == q.estate);
    AloneAttested(p, ProfileStages(ProfileRequest(q.engine, q.market), now));
  }

  /** A binding, attested on evidence that lasts two seconds more. */
  method AttestBriefly(b: Binding, p: Profile, caller: string, at: int)
    returns (store: Store, binding: Answer<BindingRecord>)
    requires b.status == "ACTIVE" && b.from <= at && b.until.None?
    ensures fresh(store) && store.Valid() && store.bindings == [b] && store.profiles == [p] && store.assignments == []
    ensures binding.Disclosed? && store.bindingRecords == [binding.record] && binding.window.expires <= at + 2 * SECOND
    ensures binding.record == BindingRecord(caller, b.engine, "ATTESTED", b.id, b.revision, at)
  {
    store := new Store();
    store.Govern([b], [], [p]);
    var q := BindingRequest(b.estate, b.environment, b.engine);
    OneBinding(b, q, at);
    TruncateBounds(at);
    assert Lasts(at, {at + 2 * SECOND} + Bounds(None));
    binding := store.ResolveBinding(caller, b.client, b.environment, q, at, at + 2 * SECOND, None, true);
    assert at + 2 * SECOND in {at + 2 * SECOND} + Bounds(None);
  }

  /** Half a minute later its evidence is spent, and it still proves provenance for a commerce attestation. */
  method ExpiredBindingProves(b: Binding, p: Profile, market: string, caller: string, at: int)
    returns (binding: Answer<BindingRecord>, commerce: Answer<CommerceRecord>)
    requires b.status == "ACTIVE" && b.from <= at && b.until.None?
    requires p.status == "ACTIVE" && p.from <= at && p.until.None?
    requires p.estate == b.estate && p.engine == b.engine && market in p.markets
    ensures binding.Disclosed? && commerce.Disclosed?
    ensures commerce.record.kind == ClientBinding && commerce.record.reference == binding.record.binding
    ensures binding.window.expires < commerce.record.resolvedAt
  {
    var store;
    store, binding := AttestBriefly(b, p, caller, at);
    var q := CommerceRequest(caller, b.estate, b.engine, market, ClientBinding, b.id);
    var now := at + 30 * SECOND;
    assert binding.record in store.bindingRecords && b in store.bindings;
    assert BindingProves(binding.record, b, q, now - PROVENANCE_WINDOW);
    OneProfile(p, q, now);
    assert Lasts(now, Bounds(p.until));
    commerce := store.ResolveCommerce(q, "attestation", now, true);
  }
}
