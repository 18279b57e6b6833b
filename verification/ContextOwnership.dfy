/**
 A context identifier is a handle, not a credential: only the principal that resolved a
 context may use it, and to everyone else it must look as if it did not exist. Responses
 are compared between two worlds that differ only in whether the context is there.
 */
module ContextOwnership {
  import opened Common

  datatype Authority = Authority(provisioning: string, planId: string, planVersion: nat, planDigest: string)

  datatype Context = Context(id: string, principal: string, tenant: string, runtime: bool, expires: Option<int>,
                             resolvedAt: int, market: string, organisation: string, authority: Option<Authority>)

  /** What a provisioning context is judged against. */
  datatype Provisioning = Provisioning(tenant: string, key: string, stage: string, planApproved: bool, planId: string,
                                       planVersion: nat, planDigest: string)

  /** The stores as one request meets them: which contexts exist, and what every other lookup answers. */
  datatype World = World(contexts: map<string, Context>, storeFails: bool,
                         identities: map<(string, string), Read<string>>, tenants: map<string, Read<string>>,
                         provisionings: map<string, Read<Provisioning>>, purposes: set<string>)

  datatype Caller = Caller(issuer: string, subject: string, client: string, tenant: string)

  datatype Response =
    | ContextBody(id: string, tenant: string, expires: Option<int>, resolvedAt: int, runtime: bool, market: string,
                  organisation: string, authority: Option<Authority>)
    | ProblemBody(status: int, code: string)

  const NOT_FOUND := ProblemBody(404, "CONTEXT_NOT_FOUND")

  function Without(w: World, id: string): World {
    w.(contexts := w.contexts - {id})
  }

  // ---------------------------------------------------------------------
  // Ownership
  // ---------------------------------------------------------------------

  function LookUp<K, V>(m: map<K, Read<V>>, k: K): Read<V> {
    if k in m then m[k] else Missing
  }

  /** Found says whether the canonical principal of the caller is the context's; a failed lookup is no answer. */
  function CanonicalOwner(w: World, c: Caller, stored: Context): Read<bool> {
    if c.issuer == "" || c.subject == "" || stored.principal == "" then Found(false)
    else match LookUp(w.identities, (c.issuer, c.subject))
      case Missing => Found(false)
      case Unreadable => Unreadable
      case Found(id) => Found(id == stored.principal)
  }

  function GetContext(w: World, id: string): Read<Context> {
    if w.storeFails then Unreadable
    else if id in w.contexts then Found(w.contexts[id])
    else Missing
  }

  /** The view every runtime consumer has: a provisioning context does not exist. */
  function RuntimeContext(w: World, id: string): Read<Context> {
    match GetContext(w, id)
    case Unreadable => Unreadable
    case Missing => Missing
    case Found(c) => if c.runtime then Found(c) else Missing
  }

  /** The tenant a workload acts for: its own if its token names one, else the one asked for. */
  function WorkloadTenant(own: string, asked: string): Option<string> {
    if own == "" then (if asked != "" then Some(asked) else None)
    else if asked != "" && asked != own then None
    else Some(own)
  }

  datatype Redeemed = Trusted(context: Context) | Refused(response: Response)

  function RedeemContext(w: World, c: Caller, id: string): Redeemed {
    match RuntimeContext(w, id)
    case Missing => Refused(NOT_FOUND)
    case Unreadable => Refused(ProblemBody(503, "CONTEXT_STORE_UNAVAILABLE"))
    case Found(stored) =>
      match CanonicalOwner(w, c, stored)
      case Found(true) =>
        if WorkloadTenant(c.tenant, stored.tenant).None? then Refused(ProblemBody(403, "TENANT_CONTEXT_MISMATCH"))
        else Trusted(stored)
      case Found(false) => Refused(NOT_FOUND)
      case _ => Refused(ProblemBody(503, "CONTEXT_STORE_UNAVAILABLE"))
  }

  /** The caller's principal, by its issuer and subject, is the one that resolved the context. */
  predicate Owns(w: World, c: Caller, stored: Context) {
    && c.issuer != "" && c.subject != "" && stored.principal != ""
    && (c.issuer, c.subject) in w.identities && w.identities[(c.issuer, c.subject)] == Found(stored.principal)
  }

  /** There is someone to look up, and the lookup failed. */
  predicate OwnerUnknown(w: World, c: Caller, stored: Context) {
    && c.issuer != "" && c.subject != "" && stored.principal != ""
    && (c.issuer, c.subject) in w.identities && w.identities[(c.issuer, c.subject)] == Unreadable
  }

  lemma {:induction false} OwnerExactly(w: World, c: Caller, stored: Context)
    ensures CanonicalOwner(w, c, stored) == Found(true) <==> Owns(w, c, stored)
    ensures CanonicalOwner(w, c, stored) == Unreadable <==> OwnerUnknown(w, c, stored)
    ensures CanonicalOwner(w, c, stored) == Found(false) <==> !Owns(w, c, stored) && !OwnerUnknown(w, c, stored)
  {
  }

  /**
   A context is redeemed exactly when it is runtime, the caller's own, and of the caller's
   tenant when both name one; one of them must.
   */
  lemma {:induction false} RedeemedIsOwned(w: World, c: Caller, id: string)
    ensures RedeemContext(w, c, id).Trusted? <==>
            && !w.storeFails && id in w.contexts && w.contexts[id].runtime && Owns(w, c, w.contexts[id])
            && var tenant := w.contexts[id].tenant;
               c.tenant == tenant != "" || (c.tenant == "" <==> tenant != "")
    ensures RedeemContext(w, c, id).Trusted? ==> RedeemContext(w, c, id).context == w.contexts[id]
  {
    if id in w.contexts {
      OwnerExactly(w, c, w.contexts[id]);
    }
  }

  /** And what it is refused with: unavailable, not its tenant's, or as if it did not exist. */
  lemma {:induction false} RedemptionRefused(w: World, c: Caller, id: string)
    requires RedeemContext(w, c, id).Refused?
    ensures var runtime := id in w.contexts && w.contexts[id].runtime;
            RedeemContext(w, c, id).response ==
              if w.storeFails || (runtime && OwnerUnknown(w, c, w.contexts[id]))
              then ProblemBody(503, "CONTEXT_STORE_UNAVAILABLE")
              else if runtime && Owns(w, c, w.contexts[id]) then ProblemBody(403, "TENANT_CONTEXT_MISMATCH")
              else ProblemBody(404, "CONTEXT_NOT_FOUND")
  {
    if id in w.contexts {
      OwnerExactly(w, c, w.contexts[id]);
    }
  }

  /**
   To a consumer of runtime contexts the answer with a context there is the answer with it
   absent, exactly when the store does not answer at all, the context is not runtime, or
   the caller's principal was looked up and is not its own. A failed identity lookup is
   the one case that tells an unowned context from an absent one.
   */
  lemma {:induction false} UnownedLooksAbsent(w: World, c: Caller, id: string)
    requires id in w.contexts
    ensures RedeemContext(w, c, id) == RedeemContext(Without(w, id), c, id) <==>
            w.storeFails || !w.contexts[id].runtime || CanonicalOwner(w, c, w.contexts[id]) == Found(false)
  {
    assert id !in Without(w, id).contexts;
  }

  // ---------------------------------------------------------------------
  // Validating a forwarded token's context
  // ---------------------------------------------------------------------

  datatype Checked = Verified(subject: Caller, workload: bool) | Rejected | IntrospectionUnavailable | NoVerifier

  datatype SubjectStatus = SubjectVerified(subject: Caller) | SubjectRejected | SubjectUnavailable

  predicate Accepts(k: Checked) {
    k.Verified? && k.workload
  }

  predicate Unreachable(k: Checked) {
    k.NoVerifier? || k.IntrospectionUnavailable?
  }

  /**
   The token checked against each audience in turn: the first acceptance wins, and only an
   answered rejection rejects.
   */
  method VerifySubject(checks: seq<Checked>) returns (status: SubjectStatus)
    ensures status.SubjectVerified? <==> exists i :: 0 <= i < |checks| && Accepts(checks[i])
    ensures status.SubjectVerified? ==>
              exists i :: && 0 <= i < |checks| && Accepts(checks[i]) && checks[i].subject == status.subject
                          && forall j :: 0 <= j < i ==> !Accepts(checks[j])
    ensures status.SubjectUnavailable? <==>
              && (forall i :: 0 <= i < |checks| ==> !Accepts(checks[i]))
              && exists i :: 0 <= i < |checks| && Unreachable(checks[i])
  {
    var unavailable := false;
    for i := 0 to |checks|
      invariant forall j :: 0 <= j < i ==> !Accepts(checks[j])
      invariant unavailable <==> exists j :: 0 <= j < i && Unreachable(checks[j])
    {
      if checks[i].NoVerifier? {
        unavailable := true;
        continue;
      }
      if checks[i].IntrospectionUnavailable? {
        unavailable := true;
      }
      if checks[i].Verified? && checks[i].workload {
        return SubjectVerified(checks[i].subject);
      }
    }
    if unavailable {
      return SubjectUnavailable;
    }
    return SubjectRejected;
  }

  const ADMISSIBLE_STAGES := {"PROVISIONING_PROVIDERS", "VERIFYING_READINESS", "REMEDIATING"}

  const ADMISSIBLE_TENANTS := {"pending", "provisioning", "active"}

  /** Whether a provisioning context is authority now; Unreadable is that a source could not be read. */
  function Judge(w: World, stored: Context): Read<bool> {
    if stored.runtime || stored.authority.None? then Found(false)
    else
      var a := stored.authority.value;
      match LookUp(w.provisionings, a.provisioning)
      case Missing => Found(false)
      case Unreadable => Unreadable
      case Found(p) =>
        if p.tenant != stored.tenant || p.key != a.provisioning then Found(false)
        else if p.stage !in ADMISSIBLE_STAGES then Found(false)
        else if !p.planApproved then Found(false)
        else Found(p.planId == a.planId && p.planVersion == a.planVersion && p.planDigest == a.planDigest)
  }

  function BodyOf(stored: Context): Response {
    if stored.runtime then
      ContextBody(stored.id, stored.tenant, stored.expires, stored.resolvedAt, true, stored.market, stored.organisation,
                  None)
    else
      ContextBody(stored.id, stored.tenant, stored.expires, stored.resolvedAt, false, "", "", stored.authority)
  }

  /** What the owner is told once ownership and purpose are settled. */
  function OwnerAnswer(w: World, subject: Caller, stored: Context): Response {
    if subject.tenant != "" && subject.tenant != stored.tenant then ProblemBody(403, "TENANT_CONTEXT_MISMATCH")
    else match LookUp(w.tenants, stored.tenant)
      case Unreadable => ProblemBody(503, "CONTEXT_STORE_UNAVAILABLE")
      case Missing => ProblemBody(403, "TENANT_NOT_ACTIVE")
      case Found(state) =>
        if stored.runtime then
          if state != "active" then ProblemBody(403, "TENANT_NOT_ACTIVE") else BodyOf(stored)
        else if state !in ADMISSIBLE_TENANTS then ProblemBody(403, "TENANT_NOT_ACTIVE")
        else match Judge(w, stored)
          case Found(true) => BodyOf(stored)
          case Found(false) => ProblemBody(403, "PROVISIONING_AUTHORITY_NOT_CURRENT")
          case _ => ProblemBody(503, "CONTEXT_STORE_UNAVAILABLE")
  }

  /** The validation of a context for the subject of a forwarded token. */
  function Validate(w: World, subject: Caller, id: string): Response {
    match GetContext(w, id)
    case Missing => NOT_FOUND
    case Unreadable => ProblemBody(503, "CONTEXT_STORE_UNAVAILABLE")
    case Found(stored) =>
      if stored.expires.None? then NOT_FOUND
      else match CanonicalOwner(w, subject, stored)
        case Found(false) => NOT_FOUND
        case Found(true) =>
          if !stored.runtime && subject.client !in w.purposes then NOT_FOUND else OwnerAnswer(w, subject, stored)
        case _ => ProblemBody(503, "CONTEXT_STORE_UNAVAILABLE")
  }

  lemma {:induction false} OwnerIsAnswered(w: World, subject: Caller, stored: Context)
    ensures OwnerAnswer(w, subject, stored) != NOT_FOUND
  {
  }

  /**
   A validator learns of a context only what its owner may: the whole response is that of an
   absent context exactly when the store does not answer, the context is unbounded, the
   subject is known not to own it, or it is a provisioning context whose owner's workload is
   not registered for the purpose.
   */
  lemma {:induction false} ValidationHidesUnowned(w: World, subject: Caller, id: string)
    requires id in w.contexts
    ensures var stored := w.contexts[id];
            Validate(w, subject, id) == Validate(Without(w, id), subject, id) <==>
            || w.storeFails || stored.expires.None? || CanonicalOwner(w, subject, stored) == Found(false)
            || (CanonicalOwner(w, subject, stored) == Found(true) && !stored.runtime && subject.client !in w.purposes)
  {
    assert id !in Without(w, id).contexts;
    OwnerIsAnswered(w, subject, w.contexts[id]);
  }

  /** The subject owns the bounded context and, for provisioning, its workload is registered for the purpose. */
  predicate Entitled(w: World, subject: Caller, id: string) {
    && !w.storeFails && id in w.contexts && w.contexts[id].expires.Some? && Owns(w, subject, w.contexts[id])
    && (w.contexts[id].runtime || subject.client in w.purposes)
  }

  predicate TenantIs(w: World, tenant: string, states: set<string>) {
    tenant in w.tenants && w.tenants[tenant].Found? && w.tenants[tenant].value in states
  }

  predicate TenantUnread(w: World, tenant: string) {
    tenant in w.tenants && w.tenants[tenant] == Unreadable
  }

  /** The provisioning the context names is the tenant's, at a stage that admits it, on the plan named, approved. */
  ghost predicate AuthorityNow(w: World, stored: Context) {
    exists a, stage ::
      && stored.authority == Some(a) && a.provisioning in w.provisionings
      && stage in {"PROVISIONING_PROVIDERS", "VERIFYING_READINESS", "REMEDIATING"}
      && w.provisionings[a.provisioning] ==
           Found(Provisioning(stored.tenant, a.provisioning, stage, true, a.planId, a.planVersion, a.planDigest))
  }

  predicate AuthorityUnread(w: World, stored: Context) {
    && stored.authority.Some? && stored.authority.value.provisioning in w.provisionings
    && w.provisionings[stored.authority.value.provisioning] == Unreadable
  }

  lemma {:induction false} JudgedExactly(w: World, stored: Context)
    requires !stored.runtime
    ensures Judge(w, stored) == Found(true) <==> AuthorityNow(w, stored)
    ensures Judge(w, stored) == Unreadable <==> AuthorityUnread(w, stored)
    ensures Judge(w, stored) == Found(false) <==> !AuthorityNow(w, stored) && !AuthorityUnread(w, stored)
  {
    if Judge(w, stored) == Found(true) {
      var a := stored.authority.value;
      var p := w.provisionings[a.provisioning].value;
      assert p == Provisioning(stored.tenant, a.provisioning, p.stage, true, a.planId, a.planVersion, a.planDigest);
    }
  }

  /**
   A context is disclosed exactly to its owner, bounded, of its tenant, and while it is
   authority: a runtime one while the tenant is active, a provisioning one while the tenant may
   still be provisioned and its provisioning stands where it was approved. What is disclosed
   is the stored context, market and organisation for runtime, authority for provisioning.
   */
  lemma {:induction false} ValidatedIsAuthority(w: World, subject: Caller, id: string)
    ensures Validate(w, subject, id).ContextBody? <==>
            && Entitled(w, subject, id) && subject.tenant in {"", w.contexts[id].tenant}
            && var stored := w.contexts[id];
               if stored.runtime then TenantIs(w, stored.tenant, {"active"})
               else TenantIs(w, stored.tenant, {"pending", "provisioning", "active"}) && AuthorityNow(w, stored)
    ensures Validate(w, subject, id).ContextBody? ==>
              var stored, body := w.contexts[id], Validate(w, subject, id);
              && body.id == stored.id && body.tenant == stored.tenant && body.expires == stored.expires
              && body.resolvedAt == stored.resolvedAt && body.runtime == stored.runtime
              && body.market == (if stored.runtime then stored.market else "")
              && body.organisation == (if stored.runtime then stored.organisation else "")
              && body.authority == (if stored.runtime then None else stored.authority)
  {
    if id in w.contexts {
      OwnerExactly(w, subject, w.contexts[id]);
      if !w.contexts[id].runtime {
        JudgedExactly(w, w.contexts[id]);
      }
    }
  }

  /** Who is not entitled is told nothing but that it does not exist, or that it could not be looked up. */
  lemma {:induction false} UnentitledTold(w: World, subject: Caller, id: string)
    requires !Entitled(w, subject, id)
    ensures Validate(w, subject, id) ==
              if w.storeFails
                 || (id in w.contexts && w.contexts[id].expires.Some? && OwnerUnknown(w, subject, w.contexts[id]))
              then ProblemBody(503, "CONTEXT_STORE_UNAVAILABLE") else ProblemBody(404, "CONTEXT_NOT_FOUND")
  {
    if id in w.contexts {
      OwnerExactly(w, subject, w.contexts[id]);
    }
  }

  /** Who is entitled and refused is told why: the tenant's, a source unread, its state, or authority lost. */
  lemma {:induction false} EntitledTold(w: World, subject: Caller, id: string)
    requires Entitled(w, subject, id) && !Validate(w, subject, id).ContextBody?
    ensures var stored := w.contexts[id];
            var states := if stored.runtime then {"active"} else {"pending", "provisioning", "active"};
            Validate(w, subject, id) ==
              if subject.tenant !in {"", stored.tenant} then ProblemBody(403, "TENANT_CONTEXT_MISMATCH")
              else if TenantUnread(w, stored.tenant) then ProblemBody(503, "CONTEXT_STORE_UNAVAILABLE")
              else if !TenantIs(w, stored.tenant, states) then ProblemBody(403, "TENANT_NOT_ACTIVE")
              else if AuthorityUnread(w, stored) then ProblemBody(503, "CONTEXT_STORE_UNAVAILABLE")
              else ProblemBody(403, "PROVISIONING_AUTHORITY_NOT_CURRENT")
  {
    OwnerExactly(w, subject, w.contexts[id]);
    if !w.contexts[id].runtime {
      JudgedExactly(w, w.contexts[id]);
    }
  }

  // ---------------------------------------------------------------------
  // Two worlds
  // ---------------------------------------------------------------------

  /** The context may make a difference to what a consumer of runtime contexts is told. */
  predicate Redeemable(w: World, c: Caller, id: string) {
    id in w.contexts && w.contexts[id].runtime && CanonicalOwner(w, c, w.contexts[id]) != Found(false)
  }

  /** The context may make a difference to what a validator is told for the subject. */
  predicate Validatable(w: World, subject: Caller, id: string) {
    && id in w.contexts && w.contexts[id].expires.Some?
    && var owned := CanonicalOwner(w, subject, w.contexts[id]);
       owned == Unreadable || (owned == Found(true) && (w.contexts[id].runtime || subject.client in w.purposes))
  }

  /** The worlds agree on everything but contexts, and on every context that either may show. */
  ghost predicate Alike(v: World, w: World, visible: (World, string) -> bool) {
    && w == v.(contexts := w.contexts)
    && forall id :: visible(v, id) || visible(w, id) ==>
      id in v.contexts && id in w.contexts && v.contexts[id] == w.contexts[id]
  }

  /** Whatever contexts exist that a caller may not see, and however many, every answer it can get is the same. */
  lemma {:induction false} RedeemersCannotTell(v: World, w: World, c: Caller, id: string)
    requires Alike(v, w, (x, i) => Redeemable(x, c, i))
    ensures RedeemContext(v, c, id) == RedeemContext(w, c, id)
  {
    var visible := (x: World, i: string) => Redeemable(x, c, i);
    assert visible(v, id) == Redeemable(v, c, id) && visible(w, id) == Redeemable(w, c, id);
  }

  /** Nor can a validator tell, for a subject that may not. */
  lemma {:induction false} ValidatorsCannotTell(v: World, w: World, subject: Caller, id: string)
    requires Alike(v, w, (x, i) => Validatable(x, subject, i))
    ensures Validate(v, subject, id) == Validate(w, subject, id)
  {
    var visible := (x: World, i: string) => Validatable(x, subject, i);
    assert visible(v, id) == Validatable(v, subject, id) && visible(w, id) == Validatable(w, subject, id);
    if Validatable(v, subject, id) || Validatable(w, subject, id) {
      assert v.contexts[id] == w.contexts[id];
      SameContextValidates(v, w, subject, id);
    } else {
      HiddenValidates(v, subject, id);
      HiddenValidates(w, subject, id);
    }
  }

  lemma {:induction false} HiddenValidates(w: World, subject: Caller, id: string)
    requires !Validatable(w, subject, id)
    ensures Validate(w, subject, id) ==
            if w.storeFails then ProblemBody(503, "CONTEXT_STORE_UNAVAILABLE") else NOT_FOUND
  {
  }

  lemma {:induction false} SameContextValidates(v: World, w: World, subject: Caller, id: string)
    requires w == v.(contexts := w.contexts) && id in v.contexts && id in w.contexts && v.contexts[id] == w.contexts[id]
    ensures Validate(v, subject, id) == Validate(w, subject, id)
  {
    assert Judge(v, v.contexts[id]) == Judge(w, w.contexts[id]);
  }
}
