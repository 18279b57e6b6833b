/**
 Context authority for provisioning, followed through the lifecycle: a provisioning context
 names a plan, and is judged against the record every time it is presented.
 */
module ProvisioningAuthority {
  import opened Common
  import P = Provisioning
  import R = ProvisioningRuns
  import S = ProvisioningSafety
  import C = ContextOwnership

  function StageName(t: P.Stage): string {
    match t
    case Draft => "DRAFT"
    case Validating => "VALIDATING"
    case Planned => "PLANNED"
    case Registering => "REGISTERING"
    case ConfiguringContext => "CONFIGURING_CONTEXT"
    case ProvisioningEntitlements => "PROVISIONING_ENTITLEMENTS"
    case ProvisioningProviders => "PROVISIONING_PROVIDERS"
    case ValidatingSecurity => "VALIDATING_SECURITY"
    case VerifyingReadiness => "VERIFYING_READINESS"
    case Blocked => "BLOCKED"
    case Remediating => "REMEDIATING"
    case Ready => "READY"
    case Active => "ACTIVE"
    case Failed => "FAILED"
    case Cancelled => "CANCELLED"
    case Deprovisioned => "DEPROVISIONED"
  }

  predicate Admissible(t: P.Stage) {
    t == P.ProvisioningProviders || t == P.VerifyingReadiness || t == P.Remediating
  }

  lemma {:induction false} AdmissibleNames(t: P.Stage)
    ensures StageName(t) in C.ADMISSIBLE_STAGES <==> Admissible(t)
  {
  }

  /** The provisioning as the judge reads it; `render` prints a digest. */
  function ViewOf(s: P.Record, tenant: string, key: string, render: P.Digest -> string): C.Provisioning {
    if s.plans == [] then C.Provisioning(tenant, key, StageName(s.stage), false, "", 0, "")
    else
      var p := P.Current(s);
      var approved := P.CurrentApproved(s) && s.stage != P.Cancelled && s.stage != P.Deprovisioned;
      C.Provisioning(tenant, key, StageName(s.stage), approved, p.id, p.version, render(P.DigestOf(p)))
  }

  /** The context is authority when it is judged against `s`. */
  predicate Judged(stored: C.Context, s: P.Record, render: P.Digest -> string) {
    && stored.authority.Some?
    && var key := stored.authority.value.provisioning;
       var view := map[key := Found(ViewOf(s, stored.tenant, key, render))];
       C.Judge(C.World(map[], false, map[], map[], view, {}), stored) == Found(true)
  }

  /** The context names the current plan of `s`. */
  predicate NamesCurrent(stored: C.Context, s: P.Record, render: P.Digest -> string) {
    && s.plans != [] && stored.authority.Some?
    && var p := P.Current(s);
       stored.authority == Some(C.Authority(stored.authority.value.provisioning, p.id, p.version,
                                            render(P.DigestOf(p))))
  }

  lemma {:induction false} JudgedNames(stored: C.Context, s: P.Record, render: P.Digest -> string)
    ensures Judged(stored, s, render) <==>
            !stored.runtime && NamesCurrent(stored, s, render) && P.CurrentApproved(s) && Admissible(s.stage)
  {
    AdmissibleNames(s.stage);
  }

  /** Authority always rests on a blocker-free plan that someone other than the creator approved. */
  lemma {:induction false} AuthorityIsApproved(run: P.Run, stored: C.Context, render: P.Digest -> string)
    requires P.Legal(run) && Judged(stored, P.Last(run), render)
    ensures var s := P.Last(run);
            && NamesCurrent(stored, s, render) && P.CurrentApproved(s) && P.Current(s).material.blockers == []
            && P.DecisionOf(s).value.who != s.creator
  {
    JudgedNames(stored, P.Last(run), render);
    R.AlwaysSound(run);
  }

  lemma {:induction false} StillApproved(c: P.Record, s: P.Record)
    requires R.VersionsContiguous(c) && R.VersionsContiguous(s) && R.Later(c, s) && P.CurrentApproved(c)
    ensures |s.plans| == |c.plans| ==> P.Current(s) == P.Current(c) && P.CurrentApproved(s)
    ensures |s.plans| != |c.plans| ==> P.Current(s).version != P.Current(c).version
  {
    assert |s.plans| == |c.plans| ==> s.plans == c.plans;
  }

  /**
   Once a context was authority, in any run and at any later point, whatever If-Match was
   given: it still is exactly while no replan has committed and the provisioning is in an
   admissible state. A replan ends it for good, and a withdrawal, a failure or a block while
   it lasts.
   */
  lemma {:induction false} AuthorityLastsExactlyWhile(run: P.Run, c: P.Record, stored: C.Context,
                                                      render: P.Digest -> string)
    requires P.Legal(run) && P.Seen(run, c) && Judged(stored, c, render)
    ensures var s := P.Last(run);
            Judged(stored, s, render) <==> |s.plans| == |c.plans| && Admissible(s.stage)
  {
    var s := P.Last(run);
    JudgedNames(stored, c, render);
    JudgedNames(stored, s, render);
    R.SeenIsEarlier(run, c);
    R.SeenSound(run, c);
    R.AlwaysSound(run);
    StillApproved(c, s);
  }

  /** After a withdrawal that is owed no block, commands in step never make any context authority again. */
  lemma {:induction false} WithdrawalEndsAuthority(base: P.Run, run: P.Run, stored: C.Context,
                                                   render: P.Digest -> string)
    requires P.Legal(run) && S.Continues(run, base) && S.Withdrawn(P.Last(base)) && P.Last(base).owed == 0
    ensures !Judged(stored, P.Last(run), render)
  {
    S.FrozenForever(run, base);
    JudgedNames(stored, P.Last(run), render);
  }
}
