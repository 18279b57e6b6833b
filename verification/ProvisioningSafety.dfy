/** What the lifecycle promises of accepted operations, replans, replays and withdrawals. */
module ProvisioningSafety {
  import opened Common
  import opened Provisioning
  import opened ProvisioningRuns

  // ---------------------------------------------------------------------
  // Accepted operations carry the current plan
  // ---------------------------------------------------------------------

  /** The command commits at the revision it read; a retry acts on the operation it read. */
  ghost predicate InStep(s: Record, t: Step) {
    match t
    case Approving(c, m, _, _, _, _, _) => c.revision == m
    case Applying(c, _, m, _, _, _, _) => c.revision == m
    case Remedying(c, _, m, _, _, _, _, _) => c.revision == m
    case Replanning(c, _, m, _, _, _, _, _) => c.revision == m
    case Withdrawing(c, m) => c.revision == m
    case Retrying(o, c, id, _, _) => c.revision == s.revision && id in o.ops && id in s.ops && o.ops[id] == s.ops[id]
    case _ => true
  }

  /** A command in step reads the plans, decisions and state it commits to. */
  lemma {:induction false} ReadsCurrent(run: Run, c: Record)
    requires Legal(run) && Seen(run, c) && c.revision == Last(run).revision
    ensures SameRevision(c, Last(run)) && c.creator == Last(run).creator && Sound(c)
  {
    SeenIsEarlier(run, c);
    SeenSound(run, c);
  }

  /**
   An apply or remediation accepted at the revision it read carries the current plan: free of
   blockers, not stale when checked, with an APPROVED decision for its digest by someone
   other than the creator.
   */
  lemma {:induction false} AcceptedCarriesCurrent(run: Run, t: Step)
    requires Legal(Then(run, t)) && (t.Applying? || t.Remedying?) && InStep(Last(run), t)
    requires Do(Last(run), t).record != Last(run)
    ensures Do(Last(run), t).reply == Accepted(t.id)
    ensures CarriesCurrent(Last(run), Do(Last(run), t).record, t)
  {
    var s := Last(run);
    AcceptingQueues(s, t);
    ReadsCurrent(run, t.c);
    AcceptedReply(s, t);
    SeenIsEarlier(run, t.c);
    AcceptedIsAuthorised(t.c, s);
    QueuedCarriesCurrent(s, t, Do(s, t).record);
  }

  /** From `s` to `n` the step queued an operation for the current plan, approved, unblocked and fresh. */
  predicate CarriesCurrent(s: Record, n: Record, t: Step)
    requires t.Applying? || t.Remedying?
  {
    && t.id !in s.ops && t.id in n.ops && n.ops[t.id].status == Queued
    && n.plans == s.plans && n.plans != [] && n.ops[t.id].digest == DigestOf(Current(n))
    && Current(n).material.blockers == [] && Fresh(s, t.a)
    && CurrentApproved(n) && DecisionOf(n).value.who != n.creator && DecisionOf(n).value.id == n.ops[t.id].approval
    && s.stage == (if t.Applying? then Planned else Blocked)
  }

  lemma {:induction false} QueuedCarriesCurrent(s: Record, t: Step, n: Record)
    requires (t.Applying? || t.Remedying?) && SameRevision(t.c, s) && CurrentApproved(t.c)
    requires Queues(s, n, KeyOf(t), t.id, NewOperation(KeyOf(t), RequestOf(t), DecisionOf(t.c).value.id))
    requires t.c.stage == (if t.Applying? then Planned else Blocked)
    requires Current(t.c).material.blockers == [] && Fresh(t.c, t.a) && DecisionOf(t.c).value.who != s.creator
    ensures CarriesCurrent(s, n, t)
  {
  }

  lemma {:induction false} AcceptedReply(s: Record, t: Step)
    requires t.Applying? || t.Remedying?
    requires Do(s, t).record != s
    ensures Do(s, t).reply == Accepted(t.id)
  {
  }

  /**
   Whatever If-Match was given, an accepted operation carries the plan current when it was
   read, and so the current one exactly when no replan committed in between.
   */
  lemma {:induction false} CarriesCurrentExactlyWhen(run: Run, t: Step)
    requires Legal(Then(run, t)) && (t.Applying? || t.Remedying?) && Do(Last(run), t).record != Last(run)
    ensures var s, n := Last(run), Do(Last(run), t).record;
            && t.id in n.ops && t.c.plans != [] && s.plans != [] && n.ops[t.id].digest == DigestOf(Current(t.c))
            && (n.ops[t.id].digest == DigestOf(Current(s)) <==> |t.c.plans| == |s.plans|)
  {
    AcceptingQueues(Last(run), t);
    SeenIsEarlier(run, t.c);
    SeenSound(run, t.c);
    AlwaysSound(run);
    CurrentSince(t.c, Last(run));
  }

  lemma {:induction false} CurrentSince(c: Record, s: Record)
    requires VersionsContiguous(c) && VersionsContiguous(s) && c.plans <= s.plans
    ensures DigestOf(Current(c)) == DigestOf(Current(s)) <==> |c.plans| == |s.plans|
  {
  }

  /** An If-Match ahead of what was read lets an apply carry a plan superseded meanwhile. */
  lemma {:induction false} AheadCarriesSuperseded(m: Material, a: Authority)
    requires m.blockers == [] && a.material == m
    ensures exists run, t ::
              && Legal(Then(run, t)) && t.Applying? && t.c.revision < t.ifMatch && Last(Then(run, t)) != Last(run)
              && Last(run).plans != [] && t.id in Last(Then(run, t)).ops
              && Last(Then(run, t)).ops[t.id].digest != DigestOf(Current(Last(run)))
  {
    var r0 := Start("ann", "p1", m, a.now + 1);
    var s0 := Last(r0);
    var approve := Approving(s0, 1, "ben", DigestOf(Current(s0)), Approved, "a1", a);
    var r1 := Then(r0, approve);
    var s1 := Last(r1);
    assert s1 == s0.(decisions := map["p1" := Decision("a1", DigestOf(Current(s0)), Approved, "ben")], revision := 2);
    var replan := Replanning(s1, s1, 2, "k1", "", "p2", m, a.now + 1);
    var r2 := Then(r1, replan);
    var p2 := Plan("p2", 2, 2, m, a.now + 1);
    assert Last(r2) == s1.(plans := s1.plans + [p2], replans := map["k1" := ""], revision := 3);
    var apply := Applying(s1, s1, 3, "ben", "k2", "o1", a);
    assert Seen(r0, s0) && Seen(r1, s1) && Seen(r2, s1);
    assert Legal(r0) && Legal(r1) && Legal(r2) && Legal(Then(r2, apply));
    assert Current(Last(r2)) == p2;
    assert CurrentApproved(s1) && !Stale(s1, a);
    assert Last(Then(r2, apply)).ops["o1"].digest == DigestOf(Current(s1));
  }

  // ---------------------------------------------------------------------
  // An operation in progress keeps its plan current
  // ---------------------------------------------------------------------

  ghost predicate AllInStep(run: Run) {
    run.Then? ==> AllInStep(run.prior) && InStep(Last(run.prior), run.step)
  }

  ghost predicate ActiveCarryCurrent(s: Record) {
    s.plans != [] && forall o :: o in s.ops && InProgress(s.ops[o]) ==> s.ops[o].digest == DigestOf(Current(s))
  }

  lemma {:induction false} OperationStepsKeepCurrent(s: Record, t: Step)
    requires t.Cancelling? || t.Abandoning? || t.Claiming? || t.Completing?
    requires ActiveCarryCurrent(s)
    ensures ActiveCarryCurrent(Do(s, t).record)
  {
    OperationStepBookkeeping(s, t);
    KeptCarryCurrent(s, Do(s, t).record) by { NoneNewlyActive(s, t); }
  }

  ghost predicate OnlyOldActive(s: Record, n: Record) {
    forall o :: o in n.ops && o in s.ops && InProgress(n.ops[o]) ==> InProgress(s.ops[o])
  }

  lemma {:induction false} KeptCarryCurrent(s: Record, n: Record)
    requires ActiveCarryCurrent(s) && Bookkeeping(s, n) && OnlyOldActive(s, n)
    ensures ActiveCarryCurrent(n)
  {
    forall o | o in n.ops && InProgress(n.ops[o])
      ensures n.ops[o].digest == DigestOf(Current(n))
    {
      assert o in s.ops.Keys;
    }
  }

  lemma {:induction false} NoneNewlyActive(s: Record, t: Step)
    requires t.Cancelling? || t.Abandoning? || t.Claiming? || t.Completing?
    ensures OnlyOldActive(s, Do(s, t).record)
  {
    forall o | o in s.ops && o in Do(s, t).record.ops
      ensures InProgress(Do(s, t).record.ops[o]) ==> InProgress(s.ops[o])
    {
      NotNewlyActive(s, t, o);
    }
  }

  lemma {:induction false} NotNewlyActive(s: Record, t: Step, o: string)
    requires t.Cancelling? || t.Abandoning? || t.Claiming? || t.Completing?
    requires o in s.ops && o in Do(s, t).record.ops
    ensures InProgress(Do(s, t).record.ops[o]) ==> InProgress(s.ops[o])
  {
  }

  lemma {:induction false} PipelineStepsKeepCurrent(s: Record, t: Step)
    requires t.StoppingShort? || t.Blocking? || t.Failing? || t.Advancing? || t.Entering? || t.Withdrawing?
    requires ActiveCarryCurrent(s)
    ensures ActiveCarryCurrent(Do(s, t).record)
  {
    assert Do(s, t).record.ops == s.ops && Do(s, t).record.plans == s.plans;
  }

  lemma {:induction false} RetryKeepsCurrent(s: Record, t: Step)
    requires t.Retrying? && InStep(s, t) && SameRevision(t.c, s) && ActiveCarryCurrent(s)
    ensures ActiveCarryCurrent(Do(s, t).record)
  {
  }

  lemma {:induction false} CommandKeepsCurrent(s: Record, t: Step)
    requires PlansOrDecides(t) && InStep(s, t) && ActiveCarryCurrent(s)
    requires t.ifMatch == s.revision ==> SameRevision(t.c, s)
    ensures ActiveCarryCurrent(Do(s, t).record)
  {
    var n := Do(s, t).record;
    if n == s {
    } else if t.Approving? {
      ApprovingDecides(s, t);
    } else if t.Replanning? {
      ReplanningSupersedes(s, t);
    } else {
      AcceptingQueues(s, t);
    }
  }

  /**
   While commands commit at the revision they read, no plan is replaced under an operation in
   progress: each one, first attempt or retried, carries the current, approved plan.
   */
  lemma {:induction false} ActiveAlwaysCurrent(run: Run)
    requires Legal(run) && AllInStep(run)
    ensures ActiveCarryCurrent(Last(run))
  {
    if run.Then? {
      ActiveAlwaysCurrent(run.prior);
      var s, t := Last(run.prior), run.step;
      if PlansOrDecides(t) {
        if t.ifMatch == s.revision {
          ReadsCurrent(run.prior, t.c);
        }
        CommandKeepsCurrent(s, t);
      } else if t.Retrying? {
        ReadsCurrent(run.prior, t.c);
        RetryKeepsCurrent(s, t);
      } else if t.Cancelling? || t.Abandoning? || t.Claiming? || t.Completing? {
        OperationStepsKeepCurrent(s, t);
      } else {
        PipelineStepsKeepCurrent(s, t);
      }
    }
  }

  // ---------------------------------------------------------------------
  // A replan needs its own decision
  // ---------------------------------------------------------------------

  /** Whatever If-Match it was given, a replan adds the next version, undecided. */
  lemma {:induction false} ReplanIsUndecided(run: Run, t: Step)
    requires Legal(Then(run, t)) && t.Replanning? && Do(Last(run), t).record != Last(run)
    ensures var s, n := Last(run), Do(Last(run), t).record;
            && s.plans != [] && |n.plans| == |s.plans| + 1 && s.plans <= n.plans
            && Current(n).version == Current(s).version + 1 && DecisionOf(n) == None
            && n.decisions == s.decisions && !OperationActive(n)
            && n.stage == (if t.m.blockers == [] then Planned else Blocked)
  {
    var s, n := Last(run), Do(Last(run), t).record;
    AlwaysSound(run);
    SeenSound(run, t.c);
    SeenIsEarlier(run, t.c);
    ReplanningSupersedes(s, t);
    NextVersion(s, t.c, PlanOf(t));
    if t.id in s.decisions {
      DecidedIsPlanned(s, t.id);
      assert false;
    }
    assert n.ops == s.ops;
  }

  lemma {:induction false} DecidedIsPlanned(s: Record, id: string)
    requires Sound(s) && id in s.decisions
    ensures exists q :: q in s.plans && q.id == id
  {
    assert s.plans[s.decisions[id].digest.version - 1] in s.plans;
  }

  /** Read with an undecided plan, no apply or remediation queues anything, whatever it commits to. */
  lemma {:induction false} UndecidedAdmitsNothing(s: Record, t: Step)
    requires (t.Applying? || t.Remedying?) && DecisionOf(t.c) == None
    ensures Do(s, t).record == s
  {
    AcceptingQueues(s, t);
  }

  // ---------------------------------------------------------------------
  // A key replays its operation
  // ---------------------------------------------------------------------

  /**
   Once a key created an operation, the same principal's later requests under it queue
   nothing, however long before they read the record. One is answered with that operation
   exactly when its request hashes the same, the current plan's digest as read and the
   reason, and either its lookup, made after the record was read, found the key or what it
   read passes the guards; a request whose lookup found the key is otherwise told it was
   reused.
   */
  lemma {:induction false} KeyReplays(run: Run, seen: Record, t: Step)
    requires Legal(Then(run, t)) && (t.Applying? || t.Remedying?) && Seen(run, seen) && KeyOf(t) in seen.byKey
    ensures Last(Then(run, t)) == Last(run)
    ensures var (o, reply) := (seen.byKey[KeyOf(t)], Do(Last(run), t).reply);
            && o in seen.ops && t.c.plans != []
            && (reply.Accepted? <==>
                seen.ops[o].request == RequestOf(t) && (KeyOf(t) in t.looked.byKey || ReadsAdmit(t)))
            && (reply.Accepted? ==> reply.op == o)
            && (KeyOf(t) in t.looked.byKey && !reply.Accepted? ==> reply == Refused(KeyReused))
  {
    var s := Last(run);
    SeenIsEarlier(run, seen);
    SeenIsEarlier(run, t.looked);
    SeenSound(run, seen);
    SeenSound(run, t.c);
    SeenSound(run, t.looked);
    AlwaysSound(run);
    KeyFixed(seen, s, s, KeyOf(t)) by { Unchanged(s); }
    if KeyOf(t) in t.looked.byKey {
      KeyFixed(seen, t.looked, s, KeyOf(t));
      ReplayReply(s, t);
    } else {
      LateReply(s, t);
    }
  }

  /** A request that did not read the key meets it in the transaction, if its guards pass. */
  lemma {:induction false} LateReply(s: Record, t: Step)
    requires (t.Applying? || t.Remedying?) && KeyOf(t) !in t.looked.byKey && KeyOf(t) in s.byKey
             && s.byKey[KeyOf(t)] in s.ops
    requires t.c.plans != []
    ensures Do(s, t).record == s
    ensures Do(s, t).reply.Accepted? <==> ReadsAdmit(t) && s.ops[s.byKey[KeyOf(t)]].request == RequestOf(t)
    ensures Do(s, t).reply.Accepted? ==> Do(s, t).reply.op == s.byKey[KeyOf(t)]
  {
    if t.Applying? {
      ApplyingAccepts(s, t);
    } else {
      RemedyingAccepts(s, t);
    }
  }

  lemma {:induction false} KeyFixed(a: Record, b: Record, s: Record, k: OpKey)
    requires Later(a, s) && Later(b, s) && KeysSound(a) && KeysSound(b) && k in a.byKey && k in b.byKey
    ensures a.byKey[k] == b.byKey[k] && a.ops[a.byKey[k]].request == b.ops[a.byKey[k]].request
  {
  }

  lemma {:induction false} ReplayReply(s: Record, t: Step)
    requires (t.Applying? || t.Remedying?) && KeyOf(t) in t.looked.byKey && t.c.plans != []
             && t.looked.byKey[KeyOf(t)] in t.looked.ops
    ensures Do(s, t).record == s
    ensures var o := t.looked.byKey[KeyOf(t)];
            Do(s, t).reply == if t.looked.ops[o].request == RequestOf(t) then Accepted(o) else Refused(KeyReused)
  {
  }

  // ---------------------------------------------------------------------
  // A withdrawn provisioning
  // ---------------------------------------------------------------------

  ghost predicate Withdrawn(s: Record) {
    s.stage == Cancelled && s.status == CancelledStatus && !OperationActive(s)
  }

  lemma {:induction false} WithdrawWithdraws(c: Record, s: Record, ifMatch: nat)
    requires Withdraw(c, s, ifMatch).reply == Done
    ensures Withdrawn(Withdraw(c, s, ifMatch).record)
  {
    assert Withdraw(c, s, ifMatch).record.ops == s.ops;
  }

  lemma {:induction false} WithdrawnRefusesCommand(s: Record, t: Step)
    requires Withdrawn(s) && InStep(s, t) && (PlansOrDecides(t) || t.Withdrawing?)
    requires t.ifMatch == s.revision ==> SameRevision(t.c, s)
    ensures Do(s, t).record == s
  {
    if t.Approving? {
      ApprovingDecides(s, t);
    } else if t.Replanning? {
      ReplanningSupersedes(s, t);
    } else if !t.Withdrawing? {
      AcceptingQueues(s, t);
    }
  }

  lemma {:induction false} WithdrawnRefusesRetry(s: Record, t: Step)
    requires Withdrawn(s) && t.Retrying? && InStep(s, t) && SameRevision(t.c, s)
    ensures Do(s, t).record == s
  {
  }

  lemma {:induction false} WithdrawnIgnoresOperationStep(s: Record, t: Step)
    requires Withdrawn(s) && (t.Cancelling? || t.Abandoning? || t.Claiming? || t.Completing?)
    ensures Do(s, t).record == s
  {
    if t.id in s.ops {
      assert !InProgress(s.ops[t.id]);
    }
  }

  lemma {:induction false} WithdrawnIgnoresPipeline(run: Run, t: Step)
    requires Legal(Then(run, t)) && Withdrawn(Last(run)) && Last(run).owed == 0
    requires t.StoppingShort? || t.Blocking? || t.Failing? || t.Advancing? || t.Entering?
    ensures Do(Last(run), t).record == Last(run)
  {
    if t.Advancing? && t.c.revision == Last(run).revision {
      ReadsCurrent(run, t.c);
    }
  }

  /** In step, nothing changes a withdrawn provisioning that no executor still owes a block. */
  lemma {:induction false} WithdrawnIsFrozen(run: Run, t: Step)
    requires Legal(Then(run, t)) && InStep(Last(run), t)
    requires Withdrawn(Last(run)) && Last(run).owed == 0
    ensures Last(Then(run, t)) == Last(run)
  {
    var s := Last(run);
    if PlansOrDecides(t) || t.Withdrawing? {
      if t.ifMatch == s.revision {
        ReadsCurrent(run, t.c);
      }
      WithdrawnRefusesCommand(s, t);
    } else if t.Retrying? {
      ReadsCurrent(run, t.c);
      WithdrawnRefusesRetry(s, t);
    } else if t.Cancelling? || t.Abandoning? || t.Claiming? || t.Completing? {
      WithdrawnIgnoresOperationStep(s, t);
    } else {
      WithdrawnIgnoresPipeline(run, t);
    }
  }

  /** `run` continues `base` with commands in step. */
  ghost predicate Continues(run: Run, base: Run) {
    run == base || (run.Then? && Continues(run.prior, base) && InStep(Last(run.prior), run.step))
  }

  lemma {:induction false} FrozenForever(run: Run, base: Run)
    requires Legal(run) && Continues(run, base) && Withdrawn(Last(base)) && Last(base).owed == 0
    ensures Last(run) == Last(base)
    decreases run
  {
    if run != base {
      FrozenForever(run.prior, base);
      WithdrawnIsFrozen(run.prior, run.step);
    }
  }

  ghost predicate Stays(run: Run, base: Run) {
    Legal(run) && Continues(run, base) ==> Last(run) == Last(base)
  }

  /** CANCELLED is final, in step, exactly when no executor still owes the provisioning a block. */
  lemma {:induction false} WithdrawalIsFinal(base: Run)
    requires Legal(base) && Withdrawn(Last(base))
    ensures Last(base).owed == 0 <==> forall run :: Stays(run, base)
  {
    if Last(base).owed == 0 {
      forall run
        ensures Stays(run, base)
      {
        if Legal(run) && Continues(run, base) {
          FrozenForever(run, base);
        }
      }
    } else {
      var revived := Then(base, Blocking);
      assert Continues(base, base);
      assert Legal(revived) && Continues(revived, base) && Last(revived).stage == Blocked;
      assert !Stays(revived, base);
    }
  }

  /** A replan's guards over what it read let it through to the store. */
  predicate ReplanReads(t: Step)
    requires t.Replanning?
  {
    t.key !in t.looked.replans && (t.c.stage == Planned || t.c.stage == Blocked || t.c.stage == Failed)
    && !OperationActive(t.c)
  }

  /** The plan's identifier and the replan's key are new. */
  predicate ReplanIsNew(s: Record, t: Step)
    requires t.Replanning?
  {
    t.key !in s.replans && forall q :: q in s.plans ==> q.id != t.id
  }

  lemma {:induction false} ReplanSupersedesWhen(s: Record, t: Step)
    requires t.Replanning? && VersionsContiguous(s) && VersionsContiguous(t.c) && t.c.plans <= s.plans
    ensures Do(s, t).record != s <==>
            ReplanReads(t) && t.ifMatch == s.revision && !OperationActive(s) && |t.c.plans| == |s.plans|
            && ReplanIsNew(s, t)
    ensures Do(s, t).record != s ==> Do(s, t).record.stage == InitialStage(t.m)
  {
    ReplanningSupersedes(s, t);
    NextVersion(s, t.c, PlanOf(t));
  }

  lemma {:induction false} RemedyQueuesWhen(s: Record, t: Step)
    requires t.Remedying? && (KeyOf(t) in t.looked.byKey ==> KeyOf(t) in s.byKey)
    ensures Do(s, t).record != s <==>
            ReadsAdmit(t) && t.ifMatch == s.revision && !OperationActive(s) && KeyOf(t) !in s.byKey && t.id !in s.ops
    ensures Do(s, t).record != s ==> Do(s, t).record.stage == Remediating
  {
    if KeyOf(t) in t.looked.byKey {
      ReplayChangesNothing(s, t);
    } else {
      RemedyingAccepts(s, t);
    }
  }

  /** What takes a CANCELLED provisioning out of that state. */
  predicate Revives(s: Record, t: Step) {
    match t
    case Blocking => s.owed > 0
    case Cancelling(id) => id in s.ops && s.ops[id].status == Queued
    case Abandoning(id) => id in s.ops && s.ops[id].status == CancelRequested
    case Replanning(c, _, m, _, _, _, _, _) =>
      ReplanReads(t) && m == s.revision && !OperationActive(s) && |c.plans| == |s.plans| && ReplanIsNew(s, t)
    case Remedying(_, _, m, _, _, _, _, _) =>
      ReadsAdmit(t) && m == s.revision && !OperationActive(s) && KeyOf(t) !in s.byKey && t.id !in s.ops
    case _ => false
  }

  /** A provisioning in state CANCELLED has the status CANCELLED, in every run. */
  lemma {:induction false} CancelledThroughout(run: Run)
    requires Legal(run)
    ensures Last(run).stage == Cancelled ==> Last(run).status == CancelledStatus
  {
    if run.Then? {
      CancelledThroughout(run.prior);
      CancelledStep(Last(run.prior), run.step);
    }
  }

  lemma {:induction false} CancelledStep(s: Record, t: Step)
    requires s.stage == Cancelled ==> s.status == CancelledStatus
    ensures Do(s, t).record.stage == Cancelled ==> Do(s, t).record.status == CancelledStatus
  {
    var n := Do(s, t).record;
    if n == s {
    } else if t.Approving? {
      ApprovingDecides(s, t);
    } else if t.Replanning? {
      ReplanningSupersedes(s, t);
    } else if t.Applying? || t.Remedying? {
      QueuedStage(s, t);
    } else if t.Retrying? || t.Cancelling? || t.Abandoning? || t.Claiming? || t.Completing? {
      OperationStepStage(s, t);
    }
  }

  lemma {:induction false} QueuedStage(s: Record, t: Step)
    requires (t.Applying? || t.Remedying?) && Do(s, t).record != s
    ensures Do(s, t).record.status == s.status
            && Do(s, t).record.stage == (if t.Applying? then s.stage else Remediating)
  {
    if KeyOf(t) in t.looked.byKey {
      ReplayChangesNothing(s, t);
    } else if t.Applying? {
      ApplyingAccepts(s, t);
    } else {
      RemedyingAccepts(s, t);
    }
  }

  /** A step on an operation changes the state only by ending a cancellation, and never the status. */
  lemma {:induction false} OperationStepStage(s: Record, t: Step)
    requires t.Retrying? || t.Cancelling? || t.Abandoning? || t.Claiming? || t.Completing?
    ensures Do(s, t).record.status == s.status
    ensures Do(s, t).record.stage ==
            if (t.Cancelling? && t.id in s.ops && s.ops[t.id].status == Queued)
               || (t.Abandoning? && t.id in s.ops && s.ops[t.id].status == CancelRequested)
            then Blocked else s.stage
  {
  }

  /**
   With no assumption on revisions or on operations in progress: exactly which steps take a
   provisioning out of CANCELLED. A replan or a remediation does so only with an If-Match
   ahead of what it read.
   */
  lemma {:induction false} LeavesCancelledExactlyWhen(run: Run, t: Step)
    requires Legal(Then(run, t)) && Last(run).stage == Cancelled
    ensures Last(Then(run, t)).stage != Cancelled <==> Revives(Last(run), t)
    ensures Revives(Last(run), t) && (t.Replanning? || t.Remedying?) ==> t.c.revision < t.ifMatch
  {
    var s := Last(run);
    if t.Replanning? || t.Remedying? {
      SeenIsEarlier(run, t.c);
      PlannerLeavesCancelled(run, t);
    } else if t.Approving? || t.Applying? || t.Withdrawing? {
      KeepsCancelled(s, t);
    } else if t.Retrying? || t.Cancelling? || t.Abandoning? || t.Claiming? || t.Completing? {
      OperationStepStage(s, t);
    } else if t.Advancing? && t.c.revision == s.revision {
      CancelledThroughout(run);
      ReadsCurrent(run, t.c);
    }
  }

  lemma {:induction false} PlannerLeavesCancelled(run: Run, t: Step)
    requires Legal(Then(run, t)) && Last(run).stage == Cancelled && (t.Replanning? || t.Remedying?)
    ensures Do(Last(run), t).record.stage != Cancelled <==> Revives(Last(run), t)
  {
    AlwaysSound(run);
    SeenIsEarlier(run, t.c);
    SeenIsEarlier(run, t.looked);
    SeenSound(run, t.c);
    if t.Replanning? {
      ReplanSupersedesWhen(Last(run), t);
    } else {
      RemedyQueuesWhen(Last(run), t);
    }
  }

  lemma {:induction false} KeepsCancelled(s: Record, t: Step)
    requires s.stage == Cancelled && (t.Approving? || t.Applying? || t.Withdrawing?)
    ensures Do(s, t).record.stage == Cancelled
  {
    if t.Applying? && Do(s, t).record != s {
      QueuedStage(s, t);
    }
  }

  /**
   A replan that read before a withdrawal and names the revision after it: CANCELLED becomes
   PLANNED, with nothing owed.
   */
  lemma {:induction false} ReplanRevives(m: Material) returns (run: Run, t: Step)
    requires m.blockers == []
    ensures Legal(Then(run, t)) && t.Replanning? && Withdrawn(Last(run)) && Last(run).owed == 0
    ensures Last(Then(run, t)).stage == Planned
  {
    var r0 := Start("ann", "p1", m, 1);
    var s0 := Last(r0);
    assert Seen(r0, s0) && Legal(r0) && AllInStep(r0) && !OperationActive(s0);
    WithdrawWithdraws(s0, s0, 1);
    run := Then(r0, Withdrawing(s0, 1));
    t := Replanning(s0, s0, 2, "k1", "", "p2", m, 1);
    assert Seen(run, s0);
    assert Last(run).plans == s0.plans && Last(run).replans == map[];
    assert VersionsContiguous(s0);
    ReplanSupersedesWhen(Last(run), t);
  }

  /** Approved and applied once, as both runs below begin. */
  ghost predicate Queued1(run: Run, m: Material) {
    && Legal(run) && AllInStep(run)
    && Last(run).creator == "ann" && Last(run).revision == 3 && Last(run).stage == Planned
    && Last(run).status == PlanStatus
    && Last(run).plans == [Plan("p1", 1, 1, m, 1)] && Last(run).owed == 0
    && Last(run).ops.Keys == {"o1"} && Last(run).ops["o1"].status == Queued && !Last(run).ops["o1"].retryable
    && Last(run).ops["o1"].attempt == 1 && Last(run).ops["o1"].kind == ApplyKind
    && Last(run).ops["o1"].digest == DigestOf(Plan("p1", 1, 1, m, 1)) && Last(run).ops["o1"].retryKey == None
  }

  lemma {:induction false} QueueOne(m: Material) returns (run: Run)
    requires m.blockers == []
    ensures Queued1(run, m)
  {
    var a := Authority(0, m);
    var r0 := Start("ann", "p1", m, 1);
    var s0 := Last(r0);
    var r1 := Then(r0, Approving(s0, 1, "ben", DigestOf(Current(s0)), Approved, "a1", a));
    var s1 := Last(r1);
    assert s1 == s0.(decisions := map["p1" := Decision("a1", DigestOf(Current(s0)), Approved, "ben")], revision := 2);
    assert Seen(r0, s0) && Seen(r1, s1);
    assert Legal(r0) && Legal(r1) && AllInStep(r0) && AllInStep(r1);
    run := Then(r1, Applying(s1, s1, 2, "ben", "k2", "o1", a));
    assert CurrentApproved(s1) && !Stale(s1, a) && !OperationActive(s1);
  }

  lemma {:induction false} Extend(run: Run, t: Step) returns (next: Run)
    requires Legal(run) && AllInStep(run) && Reads(run, t) && InStep(Last(run), t)
    ensures next == Then(run, t) && Legal(next) && AllInStep(next) && Last(next) == Do(Last(run), t).record
  {
    next := Then(run, t);
  }

  lemma {:induction false} IdleWhenDone(s: Record)
    requires s.ops.Keys == {"o1"} && !InProgress(s.ops["o1"])
    ensures !OperationActive(s)
  {
  }

  /** Its only operation over, a provisioning is withdrawn. */
  lemma {:induction false} WithdrawDone(run: Run) returns (next: Run)
    requires Legal(run) && AllInStep(run) && Last(run).ops.Keys == {"o1"} && !InProgress(Last(run).ops["o1"])
    requires Last(run).stage == Planned || Last(run).stage == Failed
    ensures next == Then(run, Withdrawing(Last(run), Last(run).revision))
    ensures Legal(next) && AllInStep(next) && Withdrawn(Last(next)) && Last(next).owed == Last(run).owed
    ensures Last(next).ops == Last(run).ops
  {
    var s := Last(run);
    IdleWhenDone(s);
    WithdrawWithdraws(s, s, s.revision);
    next := Extend(run, Withdrawing(s, s.revision));
  }

  /** Commands all in step reach a withdrawn provisioning that the executor still blocks afterwards. */
  lemma {:induction false} WithdrawalRevived(m: Material) returns (run: Run)
    requires m.blockers == []
    ensures Legal(run) && AllInStep(run) && Withdrawn(Last(run)) && Last(run).owed > 0
    ensures Last(Then(run, Blocking)).stage == Blocked
  {
    run := CancelOne(m);
    run := WithdrawDone(run);
    OwedBlockLands(run);
  }

  lemma {:induction false} OwedBlockLands(run: Run)
    requires Last(run).owed > 0
    ensures Last(Then(run, Blocking)).stage == Blocked
  {
  }

  lemma {:induction false} CancelOne(m: Material) returns (run: Run)
    requires m.blockers == []
    ensures Legal(run) && AllInStep(run) && Last(run).ops.Keys == {"o1"} && !InProgress(Last(run).ops["o1"])
    ensures Last(run).stage == Planned && Last(run).owed == 1
  {
    run := QueueOne(m);
    run := Extend(run, Claiming("o1"));
    run := Extend(run, Cancelling("o1"));
    run := Extend(run, Completing("o1", 1, Fails(false)));
  }

  lemma {:induction false} FailOne(m: Material) returns (run: Run)
    requires m.blockers == []
    ensures Legal(run) && AllInStep(run) && Last(run).ops.Keys == {"o1"} && Last(run).plans == [Plan("p1", 1, 1, m, 1)]
    ensures Last(run).stage == Failed && Last(run).owed == 0
    ensures var o := Last(run).ops["o1"];
            o.status == Running && !o.retryable && o.attempt == 1 && o.digest == DigestOf(Plan("p1", 1, 1, m, 1))
            && o.retryKey == None
  {
    run := QueueOne(m);
    run := Extend(run, Claiming("o1"));
    run := Extend(run, Advancing(Last(run), ApplyStatus));
    run := Extend(run, Advancing(Last(run), FailedStatus));
  }

  /** The operation can be queued again under this key. */
  predicate Retriable(s: Record, t: Step)
    requires t.Retrying?
  {
    && t.id in s.ops && s.ops[t.id].retryable && (s.ops[t.id].status == OpFailed || s.ops[t.id].status == OpBlocked)
    && s.ops[t.id].retryKey != Some(t.key)
  }

  /**
   In any run a retry of a retriable operation queues it exactly when the operation was read
   not retryable, so that nothing was checked, or the provisioning was read FAILED or BLOCKED,
   not stale, on the operation's plan. What the provisioning is at the commit plays no part,
   and its state is left as it is.
   */
  lemma {:induction false} RetryQueuesExactlyWhen(run: Run, t: Step)
    requires Legal(Then(run, t)) && t.Retrying? && Retriable(Last(run), t)
    ensures var s, n := Last(run), Last(Then(run, t));
            && n.stage == s.stage
            && (n != s <==> OperationActive(n) && n.ops[t.id].status == Queued)
            && (n != s <==>
                && t.id in t.o.ops
                && (!t.o.ops[t.id].retryable
                    || ((t.c.stage == Failed || t.c.stage == Blocked) && Fresh(t.c, t.a)
                        && DigestOf(Current(t.c)) == s.ops[t.id].digest)))
  {
    var s, n := Last(run), Last(Then(run, t));
    SeenIsEarlier(run, t.o);
    RetryQueues(s, t);
  }

  lemma {:induction false} RetryQueues(s: Record, t: Step)
    requires t.Retrying? && Retriable(s, t)
    requires t.id in t.o.ops ==> SameOperation(t.o.ops[t.id], s.ops[t.id])
    ensures var n := Do(s, t).record;
            && t.id in n.ops && n.stage == s.stage && (n != s <==> n.ops[t.id].status == Queued)
            && (n != s ==> OperationActive(n))
            && (n != s <==>
                && t.id in t.o.ops
                && (!t.o.ops[t.id].retryable
                    || ((t.c.stage == Failed || t.c.stage == Blocked) && Fresh(t.c, t.a)
                        && DigestOf(Current(t.c)) == s.ops[t.id].digest)))
  {
    var n := Do(s, t).record;
    if n != s {
      assert InProgress(n.ops[t.id]);
    }
  }

  /** On a withdrawn provisioning: the retry reads it before the withdrawal and commits after it. */
  lemma {:induction false} RetryAfterWithdrawal(m: Material) returns (run: Run, t: Step)
    requires m.blockers == []
    ensures Legal(Then(run, t)) && t.Retrying? && Withdrawn(Last(run)) && Last(run).owed == 0
    ensures t.o.ops.Keys == {"o1"} && t.o.ops["o1"].retryable
    ensures var n := Last(Then(run, t));
            n.stage == Cancelled && OperationActive(n) && n.owed == 0 && "o1" in n.ops && n.ops["o1"].status == Queued
  {
    var failed := FailOne(m);
    failed := Extend(failed, Completing("o1", 1, Fails(true)));
    run := WithdrawDone(failed);
    t := Retrying(Last(failed), Last(failed), "o1", "again", Authority(0, m));
    assert Seen(failed, Last(failed)) && Seen(run, Last(failed));
    RetryQueuesExactlyWhen(run, t);
  }

  /**
   Or the operation is read while it still runs, nothing is checked, and the provisioning read
   is the withdrawn one itself.
   */
  lemma {:induction false} UncheckedRetryAfterWithdrawal(m: Material) returns (run: Run, t: Step)
    requires m.blockers == []
    ensures Legal(Then(run, t)) && t.Retrying? && Withdrawn(Last(run)) && Last(run).owed == 0 && t.c == Last(run)
    ensures Last(Then(run, t)).stage == Cancelled && OperationActive(Last(Then(run, t)))
  {
    var running := FailOne(m);
    var failed := Extend(running, Completing("o1", 1, Fails(true)));
    run := WithdrawDone(failed);
    t := Retrying(Last(running), Last(run), "o1", "again", Authority(0, m));
    assert Seen(running, Last(running)) && Seen(failed, Last(running)) && Seen(run, Last(running));
    RetryQueuesExactlyWhen(run, t);
  }

  /**
   And cancelling that operation takes the withdrawn provisioning to BLOCKED: nothing was owed,
   replanned or remediated.
   */
  lemma {:induction false} CancelRevives(m: Material) returns (run: Run)
    requires m.blockers == []
    ensures Legal(Then(run, Cancelling("o1"))) && Last(run).stage == Cancelled && Last(run).owed == 0
    ensures Last(Then(run, Cancelling("o1"))).stage == Blocked
  {
    var withdrawn, t := RetryAfterWithdrawal(m);
    run := Then(withdrawn, t);
    OperationStepStage(Last(run), Cancelling("o1"));
  }
}
