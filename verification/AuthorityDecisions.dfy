/**
 The three authority pipelines, for money movement, orders and postings: a guarded sequence
 of checks that ends in a short lease of a legal actor's mandate, recorded before it is
 disclosed. Times are nanoseconds.
 */
module AuthorityDecisions {
  import opened Common
  import opened OperationCatalogues
  import opened EstateSelection
  import E = InstructionEncoding

  const LEASE := 30 * SECOND

  const AUTHORIZED := "AUTHORIZED"

  /** A context the caller owns. */
  datatype Context = Context(id: string, runtime: bool, expires: Option<int>, resolvedAt: int, tenant: string,
                             organisation: string, organisationIsUuid: bool, country: string)

  /** What the legal-actor resolver answers; nothing is assumed of it. */
  datatype Resolution = Resolution(outcome: string, validUntil: Option<int>, mandate: string, supersedes: string,
                                   entity: string, evidence: seq<string>, from: Option<int>, to: Option<int>)

  /** What every read of one request yields, and whether the record is written and conforms to its contract. */
  datatype Facts = Facts(context: Read<Context>, tenantActive: Read<bool>, bound: Read<bool>,
                         binding: Read<SellerBinding>, resolution: Read<Resolution>, stored: bool, conforms: bool)

  datatype Subject =
    | Payment(fingerprint: string, attempt: int)
    | Order(binding: string, version: int, digest: string, currency: string)
    | Posting(placement: string, version: int)

  datatype Decision = Decision(client: string, context: string, engine: string, operationClass: string,
                               reference: string, subject: Subject, outcome: string, tenant: string,
                               organisation: string, market: string, role: string, activity: string, capability: string,
                               mandate: string, supersedes: string, entity: string, evidence: seq<string>,
                               mandateFrom: Option<int>, mandateTo: Option<int>, evaluatedAt: int, expires: Option<int>)

  datatype Request = Request(client: string, context: string, engine: string, operationClass: string, reference: string,
                             subject: Subject)

  datatype Answer = Disclosed(decision: Decision) | Problem(code: string)

  // ---------------------------------------------------------------------
  // What a decision must be
  // ---------------------------------------------------------------------

  /** Mandate, legal entity, evidence and expiry are present exactly when the outcome is AUTHORIZED. */
  predicate Complete(d: Decision) {
    && (d.outcome == AUTHORIZED <==> d.mandate != "")
    && (d.outcome == AUTHORIZED <==> d.entity != "")
    && (d.outcome == AUTHORIZED <==> d.evidence != [])
    && (d.outcome == AUTHORIZED <==> d.mandateFrom.Some?)
    && (d.outcome == AUTHORIZED <==> d.expires.Some?)
  }

  predicate Brief(d: Decision) {
    d.expires.Some? ==> d.evaluatedAt < d.expires.value <= d.evaluatedAt + 30 * SECOND
  }

  predicate Sound(d: Decision) {
    Complete(d) && Brief(d)
  }

  predicate Usable(c: Context, now: int) {
    c.runtime && c.expires.Some? && now < c.expires.value && c.resolvedAt <= now && c.organisationIsUuid
    && |c.country| == 2
  }

  predicate Mandated(r: Resolution) {
    && r.outcome == AUTHORIZED && r.validUntil.Some? && r.mandate != "" && r.entity != "" && r.evidence != []
    && r.from.Some?
  }

  /** The least of the lease, the mandate's validity, the context's expiry and any further bound. */
  ghost predicate LeaseEnd(now: int, r: Resolution, c: Context, further: Option<int>, until: int)
    requires r.validUntil.Some? && c.expires.Some?
  {
    && until <= now + 30 * SECOND && until <= r.validUntil.value && until <= c.expires.value
    && (further.Some? ==> until <= further.value)
    && (until == now + 30 * SECOND || until == r.validUntil.value || until == c.expires.value || further == Some(until))
  }

  predicate AllAfter(now: int, r: Resolution, c: Context, further: Option<int>)
    requires r.validUntil.Some? && c.expires.Some?
  {
    now < r.validUntil.value && now < c.expires.value && (further.Some? ==> now < further.value)
  }

  function Open(q: Request, activity: string, now: int): Decision {
    Decision(q.client, q.context, q.engine, q.operationClass, q.reference, q.subject, "", "", "", "", "", activity, "",
             "", "", "", [], None, None, now, None)
  }

  /** What a class the catalogue does not activate is told: nothing but its request was looked at. */
  function NotActivated(q: Request, activity: string, now: int): Decision {
    Open(q, activity, now).(outcome := "OPERATION_NOT_ACTIVATED")
  }

  /** The tenant is read only for a context usable in itself; None is that it could not be. */
  method ContextCheck(c: Context, tenantActive: Read<bool>, now: int) returns (usable: Option<bool>)
    ensures usable == Some(true) <==> Usable(c, now) && tenantActive == Found(true)
    ensures usable.None? <==> Usable(c, now) && !tenantActive.Found?
  {
    if !c.runtime || c.expires.None? || c.expires.value <= now || c.resolvedAt > now || !c.organisationIsUuid ||
       |c.country| != 2 {
      return Some(false);
    }
    if !tenantActive.Found? {
      return None;
    }
    return Some(tenantActive.value);
  }

  /** What makes the shared end of the pipelines authorise. */
  predicate Grantable(now: int, r: Resolution, c: Context, further: Option<int>, entity: Option<string>) {
    Mandated(r) && (entity.Some? ==> r.entity == entity.value) && c.expires.Some? && AllAfter(now, r, c, further)
  }

  /** What the shared end answers. */
  function Narrowed(now: int, r: Resolution, c: Context, further: Option<int>, entity: Option<string>): string
    requires c.expires.Some?
  {
    if r.outcome != AUTHORIZED then r.outcome
    else if !Mandated(r) then "ACTOR_NOT_VERIFIED"
    else if entity.Some? && r.entity != entity.value then "NO_APPLICABLE_MANDATE"
    else if !AllAfter(now, r, c, further) then "REVOKED_OR_EXPIRED"
    else AUTHORIZED
  }

  /** Everything but the outcome and what comes with it. */
  predicate SameScope(d: Decision, e: Decision) {
    e == d.(outcome := e.outcome, mandate := e.mandate, supersedes := e.supersedes, entity := e.entity,
            evidence := e.evidence, mandateFrom := e.mandateFrom, mandateTo := e.mandateTo, expires := e.expires)
  }

  predicate Blank(d: Decision) {
    d.outcome == "" && d.mandate == "" && d.entity == "" && d.evidence == [] && d.mandateFrom.None? && d.expires.None?
  }

  /** What an authorised decision takes from the resolution. */
  predicate Conveys(e: Decision, r: Resolution) {
    && e.mandate == r.mandate && e.supersedes == r.supersedes && e.entity == r.entity && e.evidence == r.evidence
    && e.mandateFrom == r.from && e.mandateTo == r.to
  }

  /** The decision repeats its request, and its scope comes from the context and the catalogue alone. */
  predicate Scoped(d: Decision, q: Request, c: Context, operation: Operation, now: int) {
    && d.client == q.client && d.engine == q.engine && d.operationClass == q.operationClass
    && d.reference == q.reference
    && d.subject == q.subject && d.context == c.id && d.evaluatedAt == now
    && d.tenant == c.tenant && d.organisation == c.organisation && d.market == c.country
    && Some(d.role) == operation.role && d.activity == operation.activity
    && d.capability == (if operation.capability.Some? then operation.capability.value else "")
  }

  /** An authorised decision's content, beside its lease. */
  predicate Carries(d: Decision, q: Request, f: Facts, catalogue: map<string, Operation>, now: int) {
    && q.operationClass in catalogue && f.context.Found? && f.resolution.Found?
    && Scoped(d, q, f.context.value, catalogue[q.operationClass], now) && Conveys(d, f.resolution.value)
  }

  /** The end all three share: the resolution narrowed to a lease. `entity` is the legal entity a binding insists on. */
  method Grant(d: Decision, now: int, r: Resolution, c: Context, further: Option<int>, entity: Option<string>)
    returns (e: Decision)
    requires Blank(d) && d.evaluatedAt == now && c.expires.Some?
    ensures Sound(e) && SameScope(d, e)
    ensures e.outcome == AUTHORIZED <==> Grantable(now, r, c, further, entity)
    ensures e.outcome == AUTHORIZED ==> Conveys(e, r)
    ensures e.outcome == AUTHORIZED ==> LeaseEnd(now, r, c, further, e.expires.value)
    ensures e.outcome == Narrowed(now, r, c, further, entity)
  {
    e := d.(outcome := r.outcome);
    if r.outcome == AUTHORIZED {
      if r.validUntil.None? || r.mandate == "" || r.entity == "" || r.evidence == [] || r.from.None? {
        e := e.(outcome := "ACTOR_NOT_VERIFIED");
      } else if entity.Some? && r.entity != entity.value {
        e := e.(outcome := "NO_APPLICABLE_MANDATE");
      } else {
        var until := r.validUntil.value;
        if now + LEASE < until {
          until := now + LEASE;
        }
        if c.expires.value < until {
          until := c.expires.value;
        }
        if further.Some? && further.value < until {
          until := further.value;
        }
        if until <= now {
          e := e.(outcome := "REVOKED_OR_EXPIRED");
        } else {
          e := e.(mandate := r.mandate, supersedes := r.supersedes, entity := r.entity, evidence := r.evidence,
                  mandateFrom := r.from, mandateTo := r.to, expires := Some(until));
        }
      }
    }
  }

  // ---------------------------------------------------------------------
  // What each pipeline authorises
  // ---------------------------------------------------------------------

  predicate ContextUsable(f: Facts, now: int) {
    f.context.Found? && Usable(f.context.value, now) && f.tenantActive == Found(true)
  }

  predicate Answered(f: Facts) {
    f.stored && f.conforms
  }

  predicate PostingAuthorised(q: Request, catalogue: map<string, Operation>, f: Facts, now: int) {
    && q.operationClass in catalogue && ContextUsable(f, now) && f.bound == Found(true)
    && f.resolution.Found? && Grantable(now, f.resolution.value, f.context.value, None, None)
  }

  predicate Echoes(x: E.Instruction, c: Context) {
    x.tenant == c.tenant && x.organisation == c.organisation && x.market == c.country
  }

  /** The request's fingerprint is the instruction's, and the instruction echoes the context. */
  predicate Instructed(q: Request, x: E.Instruction, hash: string -> string, c: Context)
    requires E.Encodable(x) && q.subject.Payment?
  {
    E.Fingerprint(x, hash) == q.subject.fingerprint && Echoes(x, c)
  }

  predicate PaymentAuthorised(q: Request, x: E.Instruction, hash: string -> string, catalogue: map<string, Operation>,
                              f: Facts, now: int)
    requires E.Encodable(x) && q.subject.Payment?
  {
    && q.operationClass in catalogue && catalogue[q.operationClass].activatable && ContextUsable(f, now)
    && Instructed(q, x, hash, f.context.value)
    && f.bound == Found(true)
    && f.resolution.Found? && Grantable(now, f.resolution.value, f.context.value, None, None)
  }

  /** Why a payment whose context is usable ended as it did. */
  predicate PaymentOutcome(outcome: string, q: Request, x: E.Instruction, hash: string -> string, f: Facts, now: int)
    requires E.Encodable(x) && q.subject.Payment? && ContextUsable(f, now)
  {
    if !Instructed(q, x, hash, f.context.value) then outcome == "INSTRUCTION_MISMATCH"
    else EngineOutcome(outcome, f, now, None, None)
  }

  /** The engine is not bound, or the resolution decides. */
  predicate EngineOutcome(outcome: string, f: Facts, now: int, further: Option<int>, entity: Option<string>)
    requires ContextUsable(f, now)
  {
    match f.bound
    case Found(true) =>
      f.resolution.Found? && outcome == Narrowed(now, f.resolution.value, f.context.value, further, entity)
    case Found(false) => outcome == "ENGINE_INSTANCE_NOT_BOUND"
    case _ => false
  }

  /** Why an order whose context is usable ended as it did: a bound engine, then the binding, then the resolution. */
  predicate OrderOutcome(outcome: string, q: Request, f: Facts, now: int)
    requires q.subject.Order? && ContextUsable(f, now)
  {
    if f.bound == Found(true) && !(f.binding.Found? && Fits(f.binding.value, q, f.context.value, now)) then
      !f.binding.Unreadable? && outcome == Misfit(f.binding, q, f.context.value, now)
    else if f.binding.Found? then
      EngineOutcome(outcome, f, now, f.binding.value.until, Some(f.binding.value.entity))
    else EngineOutcome(outcome, f, now, None, None)
  }

  /** The first that fails: in effect, of the context's scope, of the configuration named. */
  function Misfit(read: Read<SellerBinding>, q: Request, c: Context, now: int): string
    requires q.subject.Order?
  {
    if !read.Found? || !InEffect(read.value.status, read.value.from, read.value.until, now) then "BINDING_NOT_ACTIVE"
    else if read.value != read.value.(tenant := c.tenant, organisation := c.organisation, market := c.country,
                                      engine := q.engine)
      || q.subject.currency !in read.value.currencies then "BINDING_SCOPE_MISMATCH"
    else "NATIVE_CONFIGURATION_MISMATCH"
  }

  /** The binding is in effect and of this context, engine, currency and configuration. */
  predicate Fits(b: SellerBinding, q: Request, c: Context, now: int)
    requires q.subject.Order?
  {
    && InEffect(b.status, b.from, b.until, now)
    && b.tenant == c.tenant && b.organisation == c.organisation && b.market == c.country && b.engine == q.engine
    && q.subject.currency in b.currencies && b.digest == q.subject.digest
  }

  predicate OrderAuthorised(q: Request, catalogue: map<string, Operation>, f: Facts, now: int)
    requires q.subject.Order?
  {
    && q.operationClass in catalogue && catalogue[q.operationClass].activatable && ContextUsable(f, now)
    && f.bound == Found(true)
    && f.binding.Found? && Fits(f.binding.value, q, f.context.value, now)
    && f.resolution.Found?
    && Grantable(now, f.resolution.value, f.context.value, f.binding.value.until, Some(f.binding.value.entity))
  }

  /** Every store and resolver answered, if only that it has nothing, and the record is written and conforms. */
  predicate AllRead(f: Facts) {
    && f.context.Found? && f.tenantActive.Found? && f.bound.Found? && !f.binding.Unreadable? && f.resolution.Found?
    && Answered(f)
  }

  /** What a decision says before anything but the caller's ownership of the context is known to be in order. */
  predicate Unscoped(d: Decision, q: Request, activity: string, c: Context, now: int) {
    d == Open(q, activity, now).(context := c.id, outcome := "CONTEXT_NOT_USABLE")
  }

  /** A payment authorised under a fingerprint was for an instruction that has it and echoes the decision's scope. */
  ghost predicate Witnessed(d: Decision, hash: string -> string) {
    d.subject.Payment? && d.outcome == AUTHORIZED ==>
      exists x :: E.Encodable(x) && InstructionOf(x, d) && E.Fingerprint(x, hash) == d.subject.fingerprint
  }

  predicate InstructionOf(x: E.Instruction, d: Decision) {
    x.operationClass == d.operationClass && x.operationReference == d.reference
    && x.tenant == d.tenant && x.organisation == d.organisation && x.market == d.market
  }

  ghost predicate AllSound(ds: seq<Decision>, hash: string -> string) {
    forall d :: d in ds ==> Sound(d) && Witnessed(d, hash)
  }

  class Ledger {
    const hash: string -> string
    const catalogue: map<string, Operation>
    var decisions: seq<Decision>

    ghost predicate Valid()
      reads this
    {
      AllSound(decisions, hash)
    }

    constructor (hash: string -> string, catalogue: map<string, Operation>)
      ensures Valid() && decisions == [] && this.hash == hash && this.catalogue == catalogue
    {
      this.hash, this.catalogue := hash, catalogue;
      decisions := [];
    }

    /** Recorded first, and disclosed only if it was recorded and conforms. */
    method Respond(d: Decision, f: Facts) returns (answer: Answer)
      requires Valid() && Sound(d) && Witnessed(d, hash)
      modifies this`decisions
      ensures Valid()
      ensures decisions == old(decisions) + if f.stored then [d] else []
      ensures answer.Disclosed? <==> Answered(f)
      ensures answer.Disclosed? ==> answer.decision == d
    {
      if !f.stored {
        return Problem("UNAVAILABLE");
      }
      decisions := decisions + [d];
      if !f.conforms {
        return Problem("INVALID");
      }
      return Disclosed(d);
    }

    /** A class the catalogue does not activate is refused before anything about the caller is read. */
    method ResolvePayment(q: Request, x: E.Instruction, f: Facts, now: int) returns (answer: Answer)
      requires Valid() && q.subject.Payment?
      requires E.Encodable(x) && x.operationClass == q.operationClass && x.operationReference == q.reference
      requires forall k :: k in catalogue ==> PaymentsEntry(catalogue[k])
      modifies this`decisions
      ensures Valid() && old(decisions) <= decisions && |decisions| <= |old(decisions)| + 1
      ensures answer.Disclosed? ==> decisions == old(decisions) + [answer.decision]
      ensures answer.Disclosed? && answer.decision.outcome == AUTHORIZED <==>
              PaymentAuthorised(q, x, hash, catalogue, f, now) && Answered(f)
      ensures answer.Disclosed? ==> q.operationClass in catalogue && Answered(f)
      ensures q.operationClass in catalogue && AllRead(f) ==> answer.Disclosed?
      ensures answer.Disclosed? && catalogue[q.operationClass].activatable ==>
                var d, operation := answer.decision, catalogue[q.operationClass];
                && f.context.Found?
                && (!ContextUsable(f, now) ==> Unscoped(d, q, operation.activity, f.context.value, now))
                && (ContextUsable(f, now) ==> Scoped(d, q, f.context.value, operation, now)
                                              && PaymentOutcome(d.outcome, q, x, hash, f, now))
      ensures answer.Disclosed? && answer.decision.outcome == AUTHORIZED ==>
                && InstructionOf(x, answer.decision) && Carries(answer.decision, q, f, catalogue, now)
                && answer.decision.expires.Some?
                && LeaseEnd(now, f.resolution.value, f.context.value, None, answer.decision.expires.value)
      ensures q.operationClass in catalogue && !catalogue[q.operationClass].activatable && Answered(f) ==>
                answer == Disclosed(NotActivated(q, catalogue[q.operationClass].activity, now))
    {
      if q.operationClass !in catalogue {
        return Problem("OPERATION_UNKNOWN");
      }
      var operation := catalogue[q.operationClass];
      var d := Open(q, operation.activity, now);
      if !operation.activatable {
        answer := Respond(d.(outcome := "OPERATION_NOT_ACTIVATED"), f);
        return;
      }
      if !f.context.Found? {
        return Problem("CONTEXT");
      }
      var trusted := f.context.value;
      d := d.(context := trusted.id);
      var usable := ContextCheck(trusted, f.tenantActive, now);
      if usable.None? {
        return Problem("UNAVAILABLE");
      }
      if !usable.value {
        answer := Respond(d.(outcome := "CONTEXT_NOT_USABLE"), f);
        return;
      }
      d := d.(tenant := trusted.tenant, organisation := trusted.organisation, market := trusted.country,
              role := operation.role.value, capability := operation.capability.value);
      if E.Fingerprint(x, hash) != q.subject.fingerprint || x.tenant != trusted.tenant ||
         x.organisation != trusted.organisation || x.market != trusted.country {
        answer := Respond(d.(outcome := "INSTRUCTION_MISMATCH"), f);
        return;
      }
      if !f.bound.Found? {
        return Problem("UNAVAILABLE");
      }
      if !f.bound.value {
        answer := Respond(d.(outcome := "ENGINE_INSTANCE_NOT_BOUND"), f);
        return;
      }
      if !f.resolution.Found? {
        return Problem("UNAVAILABLE");
      }
      d := Grant(d, now, f.resolution.value, trusted, None, None);
      assert InstructionOf(x, d);
      answer := Respond(d, f);
    }

    method ResolveOrder(q: Request, f: Facts, now: int) returns (answer: Answer)
      requires Valid() && q.subject.Order?
      requires forall k :: k in catalogue ==> TradeEntry(catalogue[k])
      modifies this`decisions
      ensures Valid() && old(decisions) <= decisions && |decisions| <= |old(decisions)| + 1
      ensures answer.Disclosed? ==> decisions == old(decisions) + [answer.decision]
      ensures answer.Disclosed? && answer.decision.outcome == AUTHORIZED <==>
              OrderAuthorised(q, catalogue, f, now) && Answered(f)
      ensures answer.Disclosed? ==> q.operationClass in catalogue && Answered(f)
      ensures q.operationClass in catalogue && AllRead(f) ==> answer.Disclosed?
      ensures answer.Disclosed? && catalogue[q.operationClass].activatable ==>
                var d, operation := answer.decision, catalogue[q.operationClass];
                && f.context.Found?
                && (!ContextUsable(f, now) ==> Unscoped(d, q, operation.activity, f.context.value, now))
                && (ContextUsable(f, now) ==> Scoped(d, q, f.context.value, operation, now)
                                              && OrderOutcome(d.outcome, q, f, now))
      ensures answer.Disclosed? && answer.decision.outcome == AUTHORIZED ==>
                && answer.decision.entity == f.binding.value.entity && Carries(answer.decision, q, f, catalogue, now)
                && answer.decision.expires.Some?
                && LeaseEnd(now, f.resolution.value, f.context.value, f.binding.value.until,
                            answer.decision.expires.value)
      ensures q.operationClass in catalogue && !catalogue[q.operationClass].activatable && Answered(f) ==>
                answer == Disclosed(NotActivated(q, catalogue[q.operationClass].activity, now))
    {
      if q.operationClass !in catalogue {
        return Problem("OPERATION_UNKNOWN");
      }
      var operation := catalogue[q.operationClass];
      var d := Open(q, operation.activity, now);
      if !operation.activatable {
        answer := Respond(d.(outcome := "OPERATION_NOT_ACTIVATED"), f);
        return;
      }
      if !f.context.Found? {
        return Problem("CONTEXT");
      }
      var trusted := f.context.value;
      d := d.(context := trusted.id);
      var usable := ContextCheck(trusted, f.tenantActive, now);
      if usable.None? {
        return Problem("UNAVAILABLE");
      }
      if !usable.value {
        answer := Respond(d.(outcome := "CONTEXT_NOT_USABLE"), f);
        return;
      }
      d := d.(tenant := trusted.tenant, organisation := trusted.organisation, market := trusted.country,
              role := operation.role.value);
      if !f.bound.Found? {
        return Problem("UNAVAILABLE");
      }
      if !f.bound.value {
        answer := Respond(d.(outcome := "ENGINE_INSTANCE_NOT_BOUND"), f);
        return;
      }
      if f.binding.Unreadable? {
        return Problem("UNAVAILABLE");
      }
      var refusal := BindingRefusal(f.binding, q, trusted, now);
      if refusal != "" {
        answer := Respond(d.(outcome := refusal), f);
        return;
      }
      var binding := f.binding.value;
      if !f.resolution.Found? {
        return Problem("UNAVAILABLE");
      }
      d := Grant(d, now, f.resolution.value, trusted, binding.until, Some(binding.entity));
      answer := Respond(d, f);
    }
  }

  // ---------------------------------------------------------------------
  // Postings, whose record has no capability
  // ---------------------------------------------------------------------

  datatype PostingRecord = PostingRecord(
    client: string, context: string, engine: string, operationClass: string, placement: string, version: int,
    reference: string, outcome: string, tenant: string, organisation: string, market: string, role: string,
    activity: string, mandate: string, supersedes: string, entity: string, evidence: seq<string>,
    mandateFrom: Option<int>, mandateTo: Option<int>, evaluatedAt: int, expires: Option<int>)

  function RecordOf(d: Decision): PostingRecord
    requires d.subject.Posting?
  {
    PostingRecord(d.client, d.context, d.engine, d.operationClass, d.subject.placement, d.subject.version, d.reference,
                  d.outcome, d.tenant, d.organisation, d.market, d.role, d.activity, d.mandate, d.supersedes, d.entity,
                  d.evidence, d.mandateFrom, d.mandateTo, d.evaluatedAt, d.expires)
  }

  /** The decision as the record gives it back. */
  function Recall(r: PostingRecord): Decision {
    Decision(r.client, r.context, r.engine, r.operationClass, r.reference, Posting(r.placement, r.version), r.outcome,
             r.tenant, r.organisation, r.market, r.role, r.activity, "", r.mandate, r.supersedes, r.entity, r.evidence,
             r.mandateFrom, r.mandateTo, r.evaluatedAt, r.expires)
  }

  /**
   A posting's record agrees with the decision in every field but the capability, and in all of
   them exactly when it has none.
   */
  lemma {:induction false} RecallForgetsCapability(d: Decision)
    requires d.subject.Posting?
    ensures Recall(RecordOf(d)) == d.(capability := "")
    ensures Recall(RecordOf(d)) == d <==> d.capability == ""
  {
  }

  ghost predicate PostingsSound(rs: seq<PostingRecord>) {
    forall r :: r in rs ==> Sound(Recall(r))
  }

  class PostingLedger {
    const catalogue: map<string, Operation>
    var records: seq<PostingRecord>

    ghost predicate Valid()
      reads this
    {
      PostingsSound(records)
    }

    constructor (catalogue: map<string, Operation>)
      ensures Valid() && records == [] && this.catalogue == catalogue
    {
      this.catalogue := catalogue;
      records := [];
    }

    /** Recorded first, without the capability, and disclosed only if it was recorded and conforms. */
    method Respond(d: Decision, f: Facts) returns (answer: Answer)
      requires Valid() && Sound(d) && d.subject.Posting?
      modifies this`records
      ensures Valid()
      ensures records == old(records) + if f.stored then [RecordOf(d)] else []
      ensures answer.Disclosed? <==> Answered(f)
      ensures answer.Disclosed? ==> answer.decision == d && Recall(records[|old(records)|]) == d.(capability := "")
    {
      if !f.stored {
        return Problem("UNAVAILABLE");
      }
      RecallForgetsCapability(d);
      records := records + [RecordOf(d)];
      if !f.conforms {
        return Problem("INVALID");
      }
      return Disclosed(d);
    }

    method ResolvePosting(q: Request, f: Facts, now: int) returns (answer: Answer)
      requires Valid() && q.subject.Posting?
      requires forall k :: k in catalogue ==> ErpEntry(catalogue[k])
      modifies this`records
      ensures Valid() && old(records) <= records && |records| <= |old(records)| + 1
      ensures answer.Disclosed? ==>
              answer.decision.subject == q.subject && records == old(records) + [RecordOf(answer.decision)]
      ensures answer.Disclosed? ==> q.operationClass in catalogue
      ensures answer.Disclosed? ==>
                (Recall(records[|old(records)|]) == answer.decision <==>
                 !(ContextUsable(f, now) && Named(catalogue[q.operationClass].capability)))
      ensures answer.Disclosed? && answer.decision.outcome == AUTHORIZED <==>
              PostingAuthorised(q, catalogue, f, now) && Answered(f)
      ensures answer.Disclosed? ==> Answered(f) && f.context.Found?
      ensures q.operationClass in catalogue && AllRead(f) ==> answer.Disclosed?
      ensures answer.Disclosed? && !ContextUsable(f, now) ==> Unscoped(answer.decision, q, "", f.context.value, now)
      ensures answer.Disclosed? && ContextUsable(f, now) ==>
                && Scoped(answer.decision, q, f.context.value, catalogue[q.operationClass], now)
                && EngineOutcome(answer.decision.outcome, f, now, None, None)
      ensures answer.Disclosed? && answer.decision.outcome == AUTHORIZED ==>
                && Carries(answer.decision, q, f, catalogue, now) && answer.decision.expires.Some?
                && LeaseEnd(now, f.resolution.value, f.context.value, None, answer.decision.expires.value)
    {
      if q.operationClass !in catalogue {
        return Problem("OPERATION_UNKNOWN");
      }
      var operation := catalogue[q.operationClass];
      if !f.context.Found? {
        return Problem("CONTEXT");
      }
      var trusted := f.context.value;
      var d := Open(q, "", now).(context := trusted.id);
      var usable := ContextCheck(trusted, f.tenantActive, now);
      if usable.None? {
        return Problem("UNAVAILABLE");
      }
      if !usable.value {
        answer := Respond(d.(outcome := "CONTEXT_NOT_USABLE"), f);
        return;
      }
      d := d.(tenant := trusted.tenant, organisation := trusted.organisation, market := trusted.country,
              role := operation.role.value, activity := operation.activity,
              capability := if operation.capability.Some? then operation.capability.value else "");
      if !f.bound.Found? {
        return Problem("UNAVAILABLE");
      }
      if !f.bound.value {
        answer := Respond(d.(outcome := "ENGINE_INSTANCE_NOT_BOUND"), f);
        return;
      }
      if !f.resolution.Found? {
        return Problem("UNAVAILABLE");
      }
      d := Grant(d, now, f.resolution.value, trusted, None, None);
      answer := Respond(d, f);
    }
  }

  /** Why a seller binding does not carry the order, or nothing. */
  method BindingRefusal(read: Read<SellerBinding>, q: Request, c: Context, now: int) returns (refusal: string)
    requires q.subject.Order? && !read.Unreadable?
    ensures refusal == "" <==> read.Found? && Fits(read.value, q, c, now)
    ensures refusal != "" ==> refusal == Misfit(read, q, c, now)
  {
    if read.Missing? {
      return "BINDING_NOT_ACTIVE";
    }
    var b := read.value;
    if b.status != "ACTIVE" || now < b.from || (b.until.Some? && b.until.value <= now) {
      return "BINDING_NOT_ACTIVE";
    }
    if b.tenant != c.tenant || b.organisation != c.organisation || b.market != c.country || b.engine != q.engine ||
       q.subject.currency !in b.currencies {
      return "BINDING_SCOPE_MISMATCH";
    }
    if b.digest != q.subject.digest {
      return "NATIVE_CONFIGURATION_MISMATCH";
    }
    return "";
  }

  // ---------------------------------------------------------------------
  // A payment authority is for one instruction
  // ---------------------------------------------------------------------

  /**
   In any ledger, an AUTHORIZED payment is bound to exactly one instruction: the one with its
   fingerprint, in every field, and that one echoes the decision's own tenant,
   organisation, market, class and reference.
   */
  lemma {:induction false} PaymentBindsOneInstruction(ds: seq<Decision>, hash: string -> string, d: Decision)
    requires AllSound(ds, hash) && d in ds && d.subject.Payment? && d.outcome == AUTHORIZED && E.Injective(hash)
    ensures exists x :: Bears(x, d, hash) && InstructionOf(x, d) && forall y :: Bears(y, d, hash) ==> y == x
  {
    var x :| E.Encodable(x) && InstructionOf(x, d) && E.Fingerprint(x, hash) == d.subject.fingerprint;
    assert Bears(x, d, hash);
    forall y | Bears(y, d, hash)
      ensures y == x
    {
      E.FingerprintBinds(x, y, hash);
    }
  }

  /** The instruction has the fingerprint the decision names. */
  ghost predicate Bears(x: E.Instruction, d: Decision, hash: string -> string) {
    d.subject.Payment? && E.Encodable(x) && E.Fingerprint(x, hash) == d.subject.fingerprint
  }

  /** Two payments authorised under one fingerprint agree on every field of the instruction, and so on the scope. */
  lemma {:induction false} OneFingerprintOneScope(ds: seq<Decision>, hash: string -> string, d: Decision, e: Decision)
    requires AllSound(ds, hash) && d in ds && e in ds && E.Injective(hash)
    requires d.subject.Payment? && e.subject.Payment? && d.outcome == AUTHORIZED == e.outcome
    requires d.subject.fingerprint == e.subject.fingerprint
    ensures d.tenant == e.tenant && d.organisation == e.organisation && d.market == e.market
    ensures d.operationClass == e.operationClass && d.reference == e.reference
  {
    PaymentBindsOneInstruction(ds, hash, d);
    PaymentBindsOneInstruction(ds, hash, e);
    var x :| Bears(x, d, hash) && InstructionOf(x, d) && forall y :: Bears(y, d, hash) ==> y == x;
    var z :| Bears(z, e, hash) && InstructionOf(z, e) && forall y :: Bears(y, e, hash) ==> y == z;
    assert Bears(z, d, hash);
  }
}
