/**
 Roles and grants: the role decision stands unless the enforcement policy lists the
 permission for the resource, and then the grants decide and fail closed. Either way the two
 are compared, and the comparison is evidence about the decision enforcement would make.
 */
module AdminVerdict {
  import opened Common

  datatype Resource = Resource(environment: string, tenant: string)

  datatype Grant = Grant(permission: string, status: string, from: int, until: Option<int>, level: string)

  datatype Identity = Identity(id: string, status: string)

  /** What the grants evaluation decides. */
  datatype Decision = Allow | Deny | StepUpRequired | ApprovalRequired | NotReady

  datatype Outcome = ShadowAllow | ShadowDeny | ShadowStepUp | ShadowApproval | ShadowNotReady | ShadowUnresolved
    | ShadowError | ShadowUnmapped

  /**
   Every read of one evaluation. `relations` is the resource resolved through the tenant's
   mappings; `decision` is what the grants then decide of it.
   */
  datatype Reads = Reads(resource: Read<Resource>, identities: bool, identity: Read<Identity>, grants: Read<seq<Grant>>,
                         relations: Read<Resource>, decision: Decision, now: int)

  datatype Evaluation = Evaluation(outcome: Outcome, comparable: bool, resource: Option<Resource>,
                                   decision: Option<Decision>)

  predicate ValidAt(g: Grant, now: int) {
    g.from <= now && (g.until.None? || now < g.until.value)
  }

  /** A live grant of the permission at a level the resource was not anchored at: it may well cover the target. */
  predicate Beside(g: Grant, permission: string, r: Resource, anchors: (Resource, string) -> bool, now: int) {
    g.permission == permission && g.status == "ACTIVE" && ValidAt(g, now) && !anchors(r, g.level)
  }

  function OutcomeOf(d: Decision): Outcome {
    match d
    case Allow => ShadowAllow
    case Deny => ShadowDeny
    case StepUpRequired => ShadowStepUp
    case ApprovalRequired => ShadowApproval
    case NotReady => ShadowNotReady
  }

  /** The grants were evaluated: the caller is known and active, and every store answered. */
  predicate Evaluated(r: Reads) {
    && r.resource.Found? && r.identities && r.identity.Found? && r.identity.value.status == "ACTIVE"
    && r.grants.Found? && r.relations.Found?
  }

  /** There is no caller whose grants could be evaluated, and no store failed to say so. */
  predicate Unresolved(r: Reads) {
    && r.resource.Found? && r.identities
    && (r.identity.Missing? || (r.identity.Found? && r.identity.value.status != "ACTIVE"))
  }

  /**
   The grants do not allow, and the caller holds a live grant of the permission at a level the
   resource was not anchored at.
   */
  ghost predicate CoveredElsewhere(r: Reads, permission: string, anchors: (Resource, string) -> bool) {
    && Evaluated(r) && r.decision != Allow
    && exists g :: && g in r.grants.value && g.permission == permission && g.status == "ACTIVE" && g.from <= r.now
                   && (g.until.Some? ==> r.now < g.until.value) && !anchors(r.relations.value, g.level)
  }

  method EvaluateGrants(r: Reads, permission: string, anchors: (Resource, string) -> bool) returns (ev: Evaluation)
    ensures ev.decision == if Evaluated(r) then Some(r.decision) else None
    ensures ev.resource.Some? <==> r.resource.Found?
    ensures Evaluated(r) ==> ev.resource == Some(r.relations.value)
    ensures r.resource.Found? && !Evaluated(r) ==> ev.resource == Some(r.resource.value)
    ensures Evaluated(r) ==>
              ev.outcome == match r.decision case Allow => ShadowAllow case Deny => ShadowDeny
                                             case StepUpRequired => ShadowStepUp case ApprovalRequired => ShadowApproval
                                             case NotReady => ShadowNotReady
    ensures !Evaluated(r) ==> ev.outcome == if Unresolved(r) then ShadowUnresolved else ShadowError
    ensures !ev.comparable <==> CoveredElsewhere(r, permission, anchors)
  {
    ev := Evaluation(ShadowError, true, None, None);
    if !r.resource.Found? {
      return;
    }
    ev := ev.(resource := Some(r.resource.value));
    if !r.identities {
      return;
    }
    match r.identity {
      case Missing =>
        ev := ev.(outcome := ShadowUnresolved);
        return;
      case Unreadable =>
        return;
      case Found(caller) =>
        if caller.status != "ACTIVE" {
          ev := ev.(outcome := ShadowUnresolved);
          return;
        }
    }
    if !r.grants.Found? || !r.relations.Found? {
      return;
    }
    ev := ev.(resource := Some(r.relations.value), decision := Some(r.decision), outcome := OutcomeOf(r.decision));
    if r.decision == Allow {
      return;
    }
    var grants := r.grants.value;
    for i := 0 to |grants|
      invariant forall j :: 0 <= j < i ==> !Beside(grants[j], permission, r.relations.value, anchors, r.now)
    {
      if Beside(grants[i], permission, r.relations.value, anchors, r.now) {
        ev := ev.(comparable := false);
        assert grants[i] in grants;
        return;
      }
    }
  }

  // ---------------------------------------------------------------------
  // The verdict
  // ---------------------------------------------------------------------

  datatype Agreement = Agree | GrantsBroader | GrantsNarrower | NotEvaluated

  datatype Comparison = Comparison(permission: string, legacy: bool, grants: Outcome, agreement: Agreement)

  datatype Verdict = Verdict(allowed: bool, unavailable: bool, code: string, enforced: bool)

  /** An entry may be limited to environments and tenants; an empty list limits nothing. */
  datatype Entry = Entry(environments: set<string>, tenants: set<string>)

  predicate GrantsEnforced(policy: map<string, Entry>, permission: string, r: Resource) {
    && permission in policy
    && (policy[permission].environments == {} || r.environment in policy[permission].environments)
    && (policy[permission].tenants == {} || r.tenant in policy[permission].tenants)
  }

  function Legacy(allowed: bool): Verdict {
    Verdict(allowed, false, "", false)
  }

  function CompareAgreement(legacy: bool, grants: Outcome): Agreement {
    if grants == ShadowUnmapped || grants == ShadowError then NotEvaluated
    else if (grants == ShadowAllow) == legacy then Agree
    else if grants == ShadowAllow then GrantsBroader
    else GrantsNarrower
  }

  /** What the grants alone answer. */
  function GrantsVerdict(ev: Evaluation): Verdict {
    match ev.decision
    case Some(Allow) => Verdict(true, false, "", true)
    case Some(StepUpRequired) => Verdict(false, false, "AUTHENTICATION_ASSURANCE_INSUFFICIENT", true)
    case Some(_) => Verdict(false, false, "AUTHORIZATION_DENIED", true)
    case None =>
      if ev.outcome == ShadowUnresolved then Verdict(false, false, "AUTHORIZATION_DENIED", true)
        else Verdict(false, true, "", true)
  }

  /** The resource the policy is matched against. */
  function Judged(r: Reads): Option<Resource> {
    if Evaluated(r) then Some(r.relations.value)
    else if r.resource.Found? then Some(r.resource.value)
    else None
  }

  /**
   The grants decide: the permission is listed, for every environment and tenant or for the
   resource's, or with the resource unknown.
   */
  predicate GrantsDecide(policy: map<string, Entry>, permission: string, r: Reads) {
    && permission in policy
    && var at := Judged(r);
       at.Some? ==>
         && (policy[permission].environments != {} ==> at.value.environment in policy[permission].environments)
         && (policy[permission].tenants != {} ==> at.value.tenant in policy[permission].tenants)
  }

  /** The role decides: the permission is not listed, or not for this resource. */
  predicate RoleDecides(permission: Option<string>, policy: map<string, Entry>, store: bool, r: Reads) {
    permission.None? || permission.value !in policy || (store && !GrantsDecide(policy, permission.value, r))
  }

  /** Grants were to decide and could not: there is no store of them, or one of the reads failed. */
  predicate GrantsUnavailable(permission: Option<string>, policy: map<string, Entry>, store: bool, r: Reads) {
    && permission.Some? && permission.value in policy
    && (!store || (GrantsDecide(policy, permission.value, r) && !Evaluated(r) && !Unresolved(r)))
  }

  /**
   A route's permission is None when it maps to none; `store` is whether there is a grant
   store at all.
   */
  method Decide(permission: Option<string>, legacy: bool, policy: map<string, Entry>, store: bool, r: Reads,
                anchors: (Resource, string) -> bool)
    returns (v: Verdict, recorded: Option<Comparison>)
    ensures !(v.allowed && v.unavailable)
    ensures permission.None? || permission.value !in policy ==> v == Legacy(legacy)
    ensures permission.Some? && permission.value in policy && !store ==> v.unavailable && !v.allowed
    ensures permission.Some? && store && GrantsDecide(policy, permission.value, r) ==>
              v.enforced && (v.allowed <==> Evaluated(r) && r.decision == Allow)
    ensures permission.Some? && store && GrantsDecide(policy, permission.value, r) ==>
              (v.unavailable <==> !Evaluated(r) && !Unresolved(r))
    ensures permission.Some? && store && GrantsDecide(policy, permission.value, r) && !v.allowed && !v.unavailable ==>
              v.code == if Evaluated(r) && r.decision == StepUpRequired then "AUTHENTICATION_ASSURANCE_INSUFFICIENT"
                else "AUTHORIZATION_DENIED"
    ensures permission.Some? && permission.value in policy && store && !GrantsDecide(policy, permission.value, r) ==>
            v == Legacy(legacy)
    ensures recorded.Some? <==> store
    ensures recorded.Some? && permission.None? ==>
              recorded.value == Comparison("unregistered", legacy, ShadowUnmapped, NotEvaluated)
    ensures recorded.Some? && permission.Some? ==>
              && recorded.value.permission == permission.value && recorded.value.legacy == legacy
              && (recorded.value.agreement == NotEvaluated <==>
                  (!Evaluated(r) && !Unresolved(r)) || CoveredElsewhere(r, permission.value, anchors))
              && (recorded.value.agreement != NotEvaluated ==> Predicts(recorded.value, legacy, r))
  {
    recorded := None;
    if permission.None? {
      if store {
        recorded := Some(Comparison("unregistered", legacy, ShadowUnmapped, NotEvaluated));
      }
      return Legacy(legacy), recorded;
    }
    var listed := permission.value in policy;
    if !store {
      if listed {
        return Verdict(false, true, "", true), None;
      }
      return Legacy(legacy), None;
    }
    var ev := EvaluateGrants(r, permission.value, anchors);
    recorded := Some(Comparison(permission.value, legacy, ev.outcome,
                                if ev.comparable then CompareAgreement(legacy, ev.outcome) else NotEvaluated));
    if !listed {
      return Legacy(legacy), recorded;
    }
    if ev.resource.Some? && !GrantsEnforced(policy, permission.value, ev.resource.value) {
      return Legacy(legacy), recorded;
    }
    return GrantsVerdict(ev), recorded;
  }

  /** A comparison that was evaluated says what enforcing the grants would have answered beside the role's answer. */
  predicate Predicts(c: Comparison, legacy: bool, r: Reads) {
    && c.legacy == legacy
    && (Evaluated(r) || Unresolved(r))
    && var enforced := Evaluated(r) && r.decision == Allow;
       && (c.grants == ShadowAllow <==> enforced)
       && (c.agreement == Agree <==> enforced == legacy)
       && (c.agreement == GrantsBroader <==> enforced && !legacy)
       && (c.agreement == GrantsNarrower <==> !enforced && legacy)
  }

  // ---------------------------------------------------------------------
  // The gates
  // ---------------------------------------------------------------------

  datatype Authority = AdminDenied | AdminAllowed | AdminUnavailable

  datatype Principal = Principal(platformAdmin: bool, tenantAdmin: bool)

  /** The lookups behind a tenant administrator's claim to a tenant. */
  datatype TenantClaim = TenantClaim(validTenant: bool, configured: bool, identity: Read<string>,
                                     membership: Read<string>)

  function TenantAdminOf(p: Principal, t: TenantClaim): Authority {
    if !p.tenantAdmin || !t.validTenant then AdminDenied
    else if !t.configured then AdminUnavailable
    else if !t.identity.Found? then AdminDenied
    else if t.membership != Found("ACTIVE") then AdminDenied
    else AdminAllowed
  }

  datatype Answer = Served | Forbidden(code: string) | Unavailable

  /** A tenant administrator's claim to a tenant is to be looked up: platform roles do not decide. */
  predicate Claims(p: Principal, platformOnly: bool, t: TenantClaim) {
    !p.platformAdmin && !platformOnly && p.tenantAdmin && t.validTenant
  }

  /**
   The role decision of a guarded route: a platform administrator's, or that of a tenant
   administrator whose membership of the tenant is ACTIVE, if memberships can be looked up.
   */
  function RoleAt(p: Principal, platformOnly: bool, t: TenantClaim): Authority {
    if Claims(p, platformOnly, t) && !t.configured then AdminUnavailable
    else if p.platformAdmin
      || (Claims(p, platformOnly, t) && t.identity.Found? && t.membership == Found("ACTIVE")) then AdminAllowed
    else AdminDenied
  }

  /** The gate in front of administrative routes. */
  method AdminGate(p: Option<Principal>, platformOnly: bool, t: TenantClaim, permission: Option<string>,
                   policy: map<string, Entry>, store: bool, r: Reads, anchors: (Resource, string) -> bool)
    returns (answer: Answer)
    ensures p.None? ==> answer == Forbidden("AUTHORIZATION_DENIED")
    ensures answer.Forbidden? && p.Some? ==>
              answer.code == if permission.Some? && store && GrantsDecide(policy, permission.value, r) && Evaluated(r)
                                && r.decision == StepUpRequired
                             then "AUTHENTICATION_ASSURANCE_INSUFFICIENT" else "AUTHORIZATION_DENIED"
    ensures answer == Unavailable <==>
              p.Some? && (RoleAt(p.value, platformOnly, t) == AdminUnavailable
                          || GrantsUnavailable(permission, policy, store, r))
    ensures p.Some? && RoleAt(p.value, platformOnly, t) != AdminUnavailable
            && RoleDecides(permission, policy, store, r) ==>
              (answer == Served <==> RoleAt(p.value, platformOnly, t) == AdminAllowed)
    ensures p.Some? && RoleAt(p.value, platformOnly, t) != AdminUnavailable && permission.Some? && store
            && GrantsDecide(policy, permission.value, r) ==>
              (answer == Served <==> Evaluated(r) && r.decision == Allow)
  {
    if p.None? {
      return Forbidden("AUTHORIZATION_DENIED");
    }
    var allowed := p.value.platformAdmin;
    if !allowed && !platformOnly && p.value.tenantAdmin {
      match TenantAdminOf(p.value, t) {
        case AdminUnavailable => return Unavailable;
        case AdminAllowed => allowed := true;
        case AdminDenied =>
      }
    }
    var verdict, _ := Decide(permission, allowed, policy, store, r, anchors);
    if verdict.unavailable {
      return Unavailable;
    }
    if !verdict.allowed {
      return Forbidden(if verdict.code == "" then "AUTHORIZATION_DENIED" else verdict.code);
    }
    return Served;
  }

  /** The check inside the operation routes, once the operation's tenant is known; "" is none. */
  method OperationAuthorised(p: Option<Principal>, tenant: string, t: TenantClaim, permission: Option<string>,
                             policy: map<string, Entry>, store: bool, r: Reads, anchors: (Resource, string) -> bool)
    returns (authority: Authority, allowed: bool)
    ensures !(allowed && authority == AdminUnavailable)
    ensures allowed ==> authority == AdminAllowed
    ensures p.None? ==> authority == AdminDenied && !allowed
    ensures authority == AdminUnavailable <==>
              p.Some? && (RoleAt(p.value, tenant == "", t) == AdminUnavailable
                          || GrantsUnavailable(permission, policy, store, r))
    ensures p.Some? && RoleAt(p.value, tenant == "", t) != AdminUnavailable
            && RoleDecides(permission, policy, store, r) ==>
              authority == RoleAt(p.value, tenant == "", t) && (allowed <==> authority == AdminAllowed)
    ensures p.Some? && RoleAt(p.value, tenant == "", t) != AdminUnavailable && permission.Some? && store
            && GrantsDecide(policy, permission.value, r) ==>
              (allowed <==> Evaluated(r) && r.decision == Allow)
  {
    if p.None? {
      return AdminDenied, false;
    }
    authority, allowed := AdminDenied, false;
    if p.value.platformAdmin {
      authority, allowed := AdminAllowed, true;
    } else if tenant != "" {
      authority := TenantAdminOf(p.value, t);
      allowed := authority == AdminAllowed;
    }
    if authority != AdminUnavailable {
      var verdict, _ := Decide(permission, allowed, policy, store, r, anchors);
      if verdict.unavailable {
        return AdminUnavailable, false;
      }
      if verdict.enforced {
        authority := if verdict.allowed then AdminAllowed else AdminDenied;
      }
      allowed := verdict.allowed;
    }
  }
}
