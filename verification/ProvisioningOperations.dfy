/** How operations and the pipeline's status progress, whoever moves them and in whatever order. */
module ProvisioningOperations {
  import opened Common
  import opened Provisioning
  import opened ProvisioningRuns
  import opened ProvisioningSafety
  import opened ProvisioningAnswers

  // ---------------------------------------------------------------------
  // The life of an operation
  // ---------------------------------------------------------------------

  predicate Ended(o: Operation) {
    o.status in {OpSucceeded, OpFailed, OpBlocked, OpCancelled}
  }

  /** From one status of an attempt to the next. */
  predicate Moves(a: Operation, b: Operation) {
    || (a.status == Queued && b == a.(status := Running))
    || (a.status == Running && b == a.(attempt := a.attempt + 1))
    || (a.status == Running && b == a.(status := CancelRequested))
    || (a.status in {Queued, CancelRequested} && b == a.(status := OpCancelled, retryable := false))
    || (a.status in {Running, CancelRequested} && b == a.(status := OpSucceeded, retryable := false))
    || (a.status == Running && b == a.(status := OpBlocked, retryable := true))
    || (a.status == Running && b == a.(status := OpFailed, retryable := b.retryable))
  }

  /** Queued once more, as the next attempt. */
  predicate Requeued(a: Operation, b: Operation) {
    && a.status in {OpFailed, OpBlocked} && a.retryable && b.retryKey.Some? && b.retryKey != a.retryKey
    && b == a.(status := Queued, attempt := a.attempt + 1, retryable := false, retryKey := b.retryKey)
  }

  /** What a step does to an operation there is already: a move, a retry, or nothing. */
  lemma {:induction false} OperationMoves(s: Record, t: Step, o: string)
    requires o in s.ops
    ensures var n := Do(s, t).record;
            && o in n.ops
            && (n.ops[o] == s.ops[o] || Moves(s.ops[o], n.ops[o]) || (t.Retrying? && Requeued(s.ops[o], n.ops[o])))
            && (n.ops[o] != s.ops[o] ==> t.id == o && !PlansOrDecides(t))
  {
    if PlansOrDecides(t) {
      CommandKeepsOperation(s, t, o);
    }
  }

  lemma {:induction false} CommandKeepsOperation(s: Record, t: Step, o: string)
    requires o in s.ops && PlansOrDecides(t)
    ensures o in Do(s, t).record.ops && Do(s, t).record.ops[o] == s.ops[o]
  {
    if t.Approving? {
      ApprovingDecides(s, t);
    } else if t.Replanning? {
      ReplanningSupersedes(s, t);
    } else {
      AcceptingQueues(s, t);
    }
  }

  /** Only an attempt that failed or was blocked can be retried. */
  lemma {:induction false} RetryableHasEnded(run: Run, o: string)
    requires o in Last(run).ops && Last(run).ops[o].retryable
    ensures Last(run).ops[o].status in {OpFailed, OpBlocked}
  {
    if run.Then? {
      var s, t := Last(run.prior), run.step;
      if o in s.ops {
        OperationMoves(s, t, o);
        if s.ops[o].retryable {
          RetryableHasEnded(run.prior, o);
        }
      } else {
        NewOperationQueued(s, t, o);
      }
    }
  }

  lemma {:induction false} NewOperationQueued(s: Record, t: Step, o: string)
    requires o !in s.ops && o in Do(s, t).record.ops
    ensures (t.Applying? || t.Remedying?) && t.id == o && !OperationActive(s)
    ensures Do(s, t).record.ops[o].status == Queued && !Do(s, t).record.ops[o].retryable
  {
    if t.Applying? || t.Remedying? {
      AcceptingQueues(s, t);
    } else if t.Approving? {
      ApprovingDecides(s, t);
    } else if t.Replanning? {
      ReplanningSupersedes(s, t);
    } else {
      OtherStepBookkeeping(s, t);
      assert false;
    }
  }

  /** Once an operation ended and cannot be retried, nothing changes it again. */
  lemma {:induction false} EndedIsFinal(run: Run, c: Record, o: string)
    requires Seen(run, c) && o in c.ops && Ended(c.ops[o]) && !c.ops[o].retryable
    ensures o in Last(run).ops && Last(run).ops[o] == c.ops[o]
    decreases run
  {
    if c != Last(run) {
      EndedIsFinal(run.prior, c, o);
      OperationMoves(Last(run.prior), run.step, o);
    }
  }

  /** The attempt was resumed as another one, or has ended. */
  predicate Past(o: Operation, attempt: nat) {
    o.attempt > attempt || (o.attempt == attempt && Ended(o))
  }

  lemma {:induction false} PastStays(run: Run, c: Record, o: string, attempt: nat)
    requires Seen(run, c) && o in c.ops && Past(c.ops[o], attempt)
    ensures o in Last(run).ops && Past(Last(run).ops[o], attempt)
    decreases run
  {
    if c != Last(run) {
      PastStays(run.prior, c, o, attempt);
      OperationMoves(Last(run.prior), run.step, o);
    }
  }

  /**
   Of one attempt a completion takes effect at most once, and none does once the operation was
   resumed as another attempt: the executor that lost its lease records nothing, whatever it
   would record and whatever happened since.
   */
  lemma {:induction false} CompletesOnce(run: Run, c: Record, o: string, attempt: nat, e: Ending)
    requires Seen(run, c) && o in c.ops && Past(c.ops[o], attempt)
    ensures Do(Last(run), Completing(o, attempt, e)).record == Last(run)
  {
    PastStays(run, c, o, attempt);
  }

  /** A completion that takes effect, and a claim of a running operation, put the attempt in the past. */
  lemma {:induction false} NowPast(s: Record, o: string, attempt: nat, e: Ending)
    ensures var n := Do(s, Completing(o, attempt, e)).record; n != s ==> o in n.ops && Past(n.ops[o], attempt)
    ensures o in s.ops && s.ops[o].status == Running ==>
              var n := Do(s, Claiming(o)).record; o in n.ops && Past(n.ops[o], s.ops[o].attempt)
  {
  }

  // ---------------------------------------------------------------------
  // One operation at a time
  // ---------------------------------------------------------------------

  ghost predicate AtMostOne(s: Record) {
    forall a, b :: a in s.ops && b in s.ops && InProgress(s.ops[a]) && InProgress(s.ops[b]) ==> a == b
  }

  /** A retry queues its operation while another is in progress. */
  predicate RetriesBeside(s: Record, t: Step) {
    t.Retrying? && Do(s, t).record != s && OperationActive(s)
  }

  lemma {:induction false} SecondExactlyWhen(s: Record, t: Step)
    requires AtMostOne(s)
    ensures AtMostOne(Do(s, t).record) <==> !RetriesBeside(s, t)
  {
    var n := Do(s, t).record;
    if RetriesBeside(s, t) {
      var o :| o in s.ops && InProgress(s.ops[o]);
      OperationMoves(s, t, o);
      OperationMoves(s, t, t.id);
      assert InProgress(n.ops[t.id]) && InProgress(n.ops[o]);
    } else {
      forall a, b | a in n.ops && b in n.ops && InProgress(n.ops[a]) && InProgress(n.ops[b])
        ensures a == b
      {
        BothInProgress(s, t, a, b);
      }
    }
  }

  lemma {:induction false} BothInProgress(s: Record, t: Step, a: string, b: string)
    requires AtMostOne(s) && !RetriesBeside(s, t)
    requires a in Do(s, t).record.ops && b in Do(s, t).record.ops
    requires InProgress(Do(s, t).record.ops[a]) && InProgress(Do(s, t).record.ops[b])
    ensures a == b
  {
    if a in s.ops { OperationMoves(s, t, a); } else { NewOperationQueued(s, t, a); }
    if b in s.ops { OperationMoves(s, t, b); } else { NewOperationQueued(s, t, b); }
  }

  ghost predicate OneThroughout(run: Run) {
    AtMostOne(Last(run)) && (run.Then? ==> OneThroughout(run.prior))
  }

  ghost predicate RetriesAlone(run: Run) {
    run.Then? ==> RetriesAlone(run.prior) && !RetriesBeside(Last(run.prior), run.step)
  }

  /**
   Never more than one operation is in progress, exactly in the runs in which no retry queues
   beside another: the retrying transaction is the one that does not look.
   */
  lemma {:induction false} OneAtATimeExactlyWhen(run: Run)
    ensures OneThroughout(run) <==> RetriesAlone(run)
  {
    if run.Then? {
      OneAtATimeExactlyWhen(run.prior);
      if OneThroughout(run.prior) {
        SecondExactlyWhen(Last(run.prior), run.step);
      }
    }
  }

  /** The one operation, by what its runs below need of it. */
  ghost predicate OnlyOne(s: Record, m: Material, status: OpStatus) {
    && s.plans == [Plan("p1", 1, 1, m, 1)] && s.ops.Keys == {"o1"}
    && var o := s.ops["o1"];
       o.kind == ApplyKind && o.status == status && o.retryKey == None && o.digest == DigestOf(s.plans[0])
       && o.attempt == 1
  }

  lemma {:induction false} ReconcileOne(m: Material) returns (run: Run)
    requires m.blockers == []
    ensures Legal(run) && AllInStep(run) && OnlyOne(Last(run), m, Running) && Last(run).status == ReconcileStatus
  {
    run := QueueOne(m);
    run := Extend(run, Claiming("o1"));
    run := Extend(run, Advancing(Last(run), ApplyStatus));
    run := Extend(run, Advancing(Last(run), ReconcileStatus));
  }

  /** Blocked for want of readiness, its operation retryable. */
  lemma {:induction false} StopOne(m: Material) returns (run: Run)
    requires m.blockers == []
    ensures Legal(run) && AllInStep(run) && Last(run).stage == Blocked
    ensures OnlyOne(Last(run), m, OpBlocked) && Last(run).ops["o1"].retryable
  {
    run := ReconcileOne(m);
    run := Extend(run, StoppingShort);
    run := Extend(run, Completing("o1", 1, StopsBlocked));
    run := Extend(run, Blocking);
  }

  /** Its remediation is accepted. */
  lemma {:induction false} RemedyOne(run: Run, m: Material) returns (remedy: Step)
    requires m.blockers == [] && Legal(run) && Last(run).stage == Blocked && OnlyOne(Last(run), m, OpBlocked)
    ensures remedy == Remedying(Last(run), Last(run), Last(run).revision, "ben", "k3", "", "o2", Authority(0, m))
    ensures Do(Last(run), remedy).record != Last(run)
  {
    var s, a := Last(run), Authority(0, m);
    remedy := Remedying(s, s, s.revision, "ben", "k3", "", "o2", a);
    AlwaysSound(run);
    IdleWhenDone(s);
    assert Authorised(s, s.ops["o1"]) && CurrentApproved(s);
    assert "o2" !in s.ops.Keys;
    if KeyOf(remedy) in s.byKey {
      assert false;
    }
    RemedyQueuesWhen(s, remedy);
  }

  /** A remediation is accepted between a retry's reads and its transaction: two operations are in progress. */
  lemma {:induction false} RetryBesideRemediation(m: Material) returns (run: Run, t: Step)
    requires m.blockers == []
    ensures Legal(Then(run, t)) && t.Retrying? && AtMostOne(Last(run)) && !AtMostOne(Last(Then(run, t)))
  {
    var stopped := StopOne(m);
    var remedy := RemedyOne(stopped, m);
    var s := Last(stopped);
    run := Then(stopped, remedy);
    t := Retrying(s, s, "o1", "again", remedy.a);
    assert Seen(stopped, s) && Seen(run, s) && Legal(run);
    assert "o1" in s.ops.Keys;
    CommandKeepsOperation(s, remedy, "o1");
    SecondExactlyWhen(s, remedy);
    AcceptingQueues(s, remedy);
    assert InProgress(Last(run).ops["o2"]);
    RetryQueuesExactlyWhen(run, t);
    SecondExactlyWhen(Last(run), t);
  }

  // ---------------------------------------------------------------------
  // The pipeline's status
  // ---------------------------------------------------------------------

  const MOVES := {
    (PlanStatus, ApplyStatus), (ApplyStatus, ReconcileStatus), (ReconcileStatus, ReadyStatus),
    (ReadyStatus, ActiveStatus), (ReconcileStatus, ApplyStatus), (FailedStatus, ApplyStatus),
    (PlanStatus, FailedStatus), (ApplyStatus, FailedStatus), (ReconcileStatus, FailedStatus),
    (ReadyStatus, FailedStatus), (PlanStatus, CancelledStatus), (ApplyStatus, CancelledStatus),
    (ReconcileStatus, CancelledStatus), (ReadyStatus, CancelledStatus), (FailedStatus, CancelledStatus)}

  const SHOWN := {
    (ApplyStatus, Registering), (ReconcileStatus, VerifyingReadiness), (ReadyStatus, Ready), (ActiveStatus, Active),
    (FailedStatus, Failed), (CancelledStatus, Cancelled)}

  /** The status changes along the pipeline's moves or by a withdrawal, and the state shows the new one. */
  lemma {:induction false} StatusMoves(run: Run, t: Step)
    requires Legal(Then(run, t)) && Last(Then(run, t)).status != Last(run).status
    ensures var s, n := Last(run), Last(Then(run, t));
            && (n.status, n.stage) in SHOWN
            && ((t.Advancing? && t.to == n.status && (s.status, n.status) in MOVES)
                || (t.Withdrawing? && n.status == CancelledStatus))
  {
    var s := Last(run);
    if t.Advancing? {
      ReadsCurrent(run, t.c);
    } else {
      OnlyAdvancingMoves(s, t);
    }
  }

  /**
   The pipeline's write takes effect exactly when nothing has been committed since it read and
   it moves the status on, or saves one that is under way; saving leaves the state alone.
   */
  lemma {:induction false} AdvancesExactlyWhen(run: Run, t: Step)
    requires Legal(Then(run, t)) && t.Advancing?
    ensures var s, n := Last(run), Last(Then(run, t));
            && (n != s <==>
                && t.c.revision == s.revision
                && ((s.status, t.to) in MOVES
                    || (t.to == s.status && t.to in {ApplyStatus, ReconcileStatus, ReadyStatus})))
            && (n != s ==> n.status == t.to && n.revision == s.revision + 1)
            && (n.status == s.status ==> n.stage == s.stage)
  {
    if t.c.revision == Last(run).revision {
      ReadsCurrent(run, t.c);
    }
  }

  lemma {:induction false} OnlyAdvancingMoves(s: Record, t: Step)
    requires !t.Advancing? && Do(s, t).record.status != s.status
    ensures t.Withdrawing?
  {
    if t.Applying? || t.Remedying? {
      QueuedStage(s, t);
    } else if t.Approving? {
      ApprovingDecides(s, t);
    } else if t.Replanning? {
      ReplanningSupersedes(s, t);
    } else if t.Retrying? || t.Cancelling? || t.Abandoning? || t.Claiming? || t.Completing? {
      OperationStepStage(s, t);
    }
  }

  ghost predicate Reached(run: Run, status: Status) {
    Last(run).status == status || (run.Then? && Reached(run.prior, status))
  }

  /** What the status must have been before. */
  predicate Follows(next: Status, status: Status) {
    || (next == ActiveStatus && status == ReadyStatus)
    || (next == ReadyStatus && status == ReconcileStatus)
    || (next == ReconcileStatus && status == ApplyStatus)
  }

  /** A provisioning is ACTIVE only after it was READY, READY only after RECONCILE, and that only after APPLY. */
  lemma {:induction false} ReachedInTurn(run: Run, next: Status, status: Status)
    requires Legal(run) && Reached(run, next) && Follows(next, status)
    ensures Reached(run, status)
  {
    if run.Then? {
      if Reached(run.prior, next) {
        ReachedInTurn(run.prior, next, status);
      } else {
        StatusMoves(run.prior, run.step);
      }
    }
  }

  // ---------------------------------------------------------------------
  // What the executor still has to write
  // ---------------------------------------------------------------------

  /** The executor learnt that the provisioning is to be blocked. */
  ghost predicate Incurs(s: Record, t: Step) {
    || (t.StoppingShort? && s.status in {ReconcileStatus, ReadyStatus})
    || (t.Completing? && t.id in s.ops && s.ops[t.id].status == CancelRequested
        && Do(s, t).record.ops[t.id].status == OpCancelled)
  }

  /** It blocked one. */
  predicate Pays(s: Record, t: Step) {
    t.Blocking? && Do(s, t).record != s
  }

  ghost function Incurred(run: Run): nat {
    if run.Start? then 0 else Incurred(run.prior) + if Incurs(Last(run.prior), run.step) then 1 else 0
  }

  ghost function Paid(run: Run): nat {
    if run.Start? then 0 else Paid(run.prior) + if Pays(Last(run.prior), run.step) then 1 else 0
  }

  /** Every block the executor came to owe was written once, or is still owed. */
  lemma {:induction false} BlocksAreOwed(run: Run)
    ensures Incurred(run) == Paid(run) + Last(run).owed
  {
    if run.Then? {
      BlocksAreOwed(run.prior);
      OwedStep(Last(run.prior), run.step);
    }
  }

  lemma {:induction false} OwedStep(s: Record, t: Step)
    ensures Do(s, t).record.owed + (if Pays(s, t) then 1 else 0) == s.owed + if Incurs(s, t) then 1 else 0
    ensures Pays(s, t) ==> Do(s, t).record == s.(owed := s.owed - 1, stage := Blocked, revision := s.revision + 1)
  {
    if t.Applying? || t.Remedying? {
      AcceptingQueues(s, t);
    } else if t.Approving? {
      ApprovingDecides(s, t);
    } else if t.Replanning? {
      ReplanningSupersedes(s, t);
    }
  }

  /** Every commit raises the revision by one, or leaves it alone. */
  lemma {:induction false} RevisionByOne(s: Record, t: Step)
    ensures s.revision <= Do(s, t).record.revision <= s.revision + 1
  {
    if t.Applying? || t.Remedying? {
      AcceptingQueues(s, t);
    } else if t.Approving? {
      ApprovingDecides(s, t);
    } else if t.Replanning? {
      ReplanningSupersedes(s, t);
    }
  }

  /** Exactly one move of the state leaves the revision alone: into provider provisioning, from a phase before it. */
  lemma {:induction false} QuietMoveExactly(s: Record, t: Step)
    ensures var n := Do(s, t).record;
            && (n.stage != s.stage && n.revision == s.revision <==>
                  t.Entering? && s.stage in {Registering, ConfiguringContext, ProvisioningEntitlements})
            && (t.Entering? && n != s ==> n == s.(stage := ProvisioningProviders))
  {
    if t.Applying? || t.Remedying? {
      AcceptingQueues(s, t);
    } else if t.Approving? {
      ApprovingDecides(s, t);
    } else if t.Replanning? {
      ReplanningSupersedes(s, t);
    }
  }

  /** No command gets past what it read of a provisioning in REMEDIATING. */
  lemma {:induction false} RemediatingIsStranded(t: Step)
    requires Command(t) && t.c.stage == Remediating
    requires t.Retrying? ==> t.id in t.o.ops && t.o.ops[t.id].retryable
    ensures !Silent(ReadObjections(t))
  {
    Settle(ReadObjections(t));
  }

  /**
   So a failure the pipeline did not record takes it out, to FAILED if it may be retried and to
   BLOCKED if not, where with nothing in progress it can be replanned or withdrawn; anywhere
   else it changes nothing.
   */
  lemma {:induction false} FailureReleases(s: Record, retryable: bool)
    ensures var n := Do(s, Failing(retryable)).record;
            && (s.stage != Remediating ==> n == s)
            && (s.stage == Remediating ==>
                  && n == s.(stage := if retryable then Failed else Blocked, revision := s.revision + 1)
                  && (!OperationActive(s) ==>
                        forall t: Step :: (t.Replanning? || t.Withdrawing?) && t.c == n ==> Silent(ReadObjections(t))))
  {
    var n := Do(s, Failing(retryable)).record;
    if s.stage == Remediating && !OperationActive(s) {
      assert n.ops == s.ops;
      forall t: Step | (t.Replanning? || t.Withdrawing?) && t.c == n
        ensures Silent(ReadObjections(t))
      {
        Settle(ReadObjections(t));
      }
    }
  }
}
