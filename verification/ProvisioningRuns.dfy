/** What every run of the provisioning lifecycle keeps. */
module ProvisioningRuns {
  import opened Common
  import opened Provisioning

  // ---------------------------------------------------------------------
  // Nothing recorded is lost, and a revision fixes what was planned and decided
  // ---------------------------------------------------------------------

  /** Everything about an operation that its later attempts keep. */
  predicate SameOperation(a: Operation, b: Operation) {
    a.kind == b.kind && a.digest == b.digest && a.approval == b.approval && a.who == b.who && a.request == b.request
  }

  ghost predicate OperationsKept(c: Record, s: Record) {
    forall o :: o in c.ops ==> o in s.ops && SameOperation(c.ops[o], s.ops[o])
  }

  ghost predicate DecisionsKept(c: Record, s: Record) {
    forall p :: p in c.decisions ==> p in s.decisions && s.decisions[p] == c.decisions[p]
  }

  ghost predicate KeysKept(c: Record, s: Record) {
    && (forall k :: k in c.byKey ==> k in s.byKey && s.byKey[k] == c.byKey[k])
    && (forall k :: k in c.replans ==> k in s.replans && s.replans[k] == c.replans[k])
  }

  /** At one revision the plans, decisions and status are fixed, and the state up to entering the provider phase. */
  predicate SameRevision(c: Record, s: Record) {
    && s.plans == c.plans
    && s.decisions == c.decisions
    && s.status == c.status
    && (s.stage == c.stage || (BeforeProviders(c.stage) && s.stage == ProvisioningProviders))
  }

  /** `s` is later than `c`. */
  ghost predicate Later(c: Record, s: Record) {
    && s.creator == c.creator
    && c.revision <= s.revision
    && c.plans <= s.plans
    && OperationsKept(c, s) && DecisionsKept(c, s) && KeysKept(c, s)
    && (c.revision == s.revision ==> SameRevision(c, s))
  }

  /** Only the state, status, revision and the progress of operations changed. */
  ghost predicate Bookkeeping(s: Record, n: Record) {
    && n.creator == s.creator && n.plans == s.plans && n.decisions == s.decisions
    && n.byKey == s.byKey && n.replans == s.replans
    && n.ops.Keys == s.ops.Keys && OperationsKept(s, n)
    && s.revision <= n.revision
    && (s.revision == n.revision ==> SameRevision(s, n))
  }

  lemma {:induction false} BookkeepingIsLater(s: Record, n: Record)
    requires Bookkeeping(s, n)
    ensures Later(s, n)
  {
  }

  lemma {:induction false} OneOperation(s: Record, n: Record, id: string, o: Operation)
    requires id in s.ops && SameOperation(s.ops[id], o)
    requires n == s.(ops := s.ops[id := o], stage := n.stage, revision := n.revision, owed := n.owed)
    requires s.revision <= n.revision && (s.revision == n.revision ==> s.stage == n.stage)
    ensures Bookkeeping(s, n)
  {
    assert n.ops.Keys == s.ops.Keys;
  }

  lemma {:induction false} RetryBookkeeping(s: Record, id: string, key: string)
    ensures Bookkeeping(s, RetryOperation(s, id, key).record)
  {
    var n := RetryOperation(s, id, key).record;
    if n != s {
      OneOperation(s, n, id, n.ops[id]);
    }
  }

  lemma {:induction false} EndBookkeeping(s: Record, id: string)
    requires id in s.ops
    ensures Bookkeeping(s, EndCancelled(s, id))
  {
    OneOperation(s, EndCancelled(s, id), id, EndCancelled(s, id).ops[id]);
  }

  lemma {:induction false} CancelBookkeeping(s: Record, id: string)
    ensures Bookkeeping(s, CancelOperation(s, id).record)
  {
    var n := CancelOperation(s, id).record;
    if id in s.ops && s.ops[id].status == Queued {
      EndBookkeeping(s, id);
    } else if n != s {
      OneOperation(s, n, id, n.ops[id]);
    }
  }

  lemma {:induction false} ClaimBookkeeping(s: Record, id: string)
    ensures Bookkeeping(s, Claim(s, id))
  {
    var n := Claim(s, id);
    if n != s {
      OneOperation(s, n, id, n.ops[id]);
    }
  }

  lemma {:induction false} CompleteBookkeeping(s: Record, id: string, attempt: nat, e: Ending)
    ensures Bookkeeping(s, Complete(s, id, attempt, e))
  {
    var n := Complete(s, id, attempt, e);
    if n != s {
      OneOperation(s, n, id, n.ops[id]);
    }
  }

  lemma {:induction false} OperationStepBookkeeping(s: Record, t: Step)
    requires t.Retrying? || t.Cancelling? || t.Abandoning? || t.Claiming? || t.Completing?
    ensures Bookkeeping(s, Do(s, t).record)
  {
    var n := Do(s, t).record;
    if n == s {
    } else if t.Retrying? {
      RetryBookkeeping(s, t.id, t.key);
    } else if t.Cancelling? {
      CancelBookkeeping(s, t.id);
    } else if t.Abandoning? {
      EndBookkeeping(s, t.id);
    } else if t.Claiming? {
      ClaimBookkeeping(s, t.id);
    } else {
      CompleteBookkeeping(s, t.id, t.attempt, t.e);
    }
  }

  lemma {:induction false} PipelineStepBookkeeping(s: Record, t: Step)
    requires t.StoppingShort? || t.Blocking? || t.Failing? || t.Advancing? || t.Entering? || t.Withdrawing?
    ensures Bookkeeping(s, Do(s, t).record)
  {
    var n := Do(s, t).record;
    assert n == s.(stage := n.stage, status := n.status, revision := n.revision, owed := n.owed);
  }

  predicate PlansOrDecides(t: Step) {
    t.Approving? || t.Applying? || t.Remedying? || t.Replanning?
  }

  lemma {:induction false} OtherStepBookkeeping(s: Record, t: Step)
    requires !PlansOrDecides(t)
    ensures Bookkeeping(s, Do(s, t).record)
  {
    if t.Retrying? || t.Cancelling? || t.Abandoning? || t.Claiming? || t.Completing? {
      OperationStepBookkeeping(s, t);
    } else {
      PipelineStepBookkeeping(s, t);
    }
  }

  /** A new operation under a new key. */
  predicate Queues(s: Record, n: Record, k: OpKey, id: string, o: Operation) {
    && id !in s.ops && k !in s.byKey
    && o.kind == k.kind && o.who == k.who
    && n == s.(ops := s.ops[id := o], byKey := s.byKey[k := id], stage := n.stage, revision := s.revision + 1)
  }

  lemma {:induction false} QueuesIsLater(s: Record, n: Record, k: OpKey, id: string, o: Operation)
    requires Queues(s, n, k, id, o)
    ensures Later(s, n)
  {
  }

  function NewOperation(k: OpKey, request: Request, approval: string): Operation {
    Operation(k.kind, request.digest, approval, k.who, request, Queued, false, 1, None)
  }

  lemma {:induction false} AcceptQueues(s: Record, ifMatch: nat, k: OpKey, id: string, request: Request,
                                        approval: string, stage: Stage)
    ensures var n := AcceptOperation(s, ifMatch, k, id, request, approval, stage).record;
            n == s || (s.revision == ifMatch && !OperationActive(s)
                       && Queues(s, n, k, id, NewOperation(k, request, approval)))
  {
  }

  function RequestOf(t: Step): Request
    requires (t.Applying? || t.Remedying?) && t.c.plans != []
  {
    Request(DigestOf(Current(t.c)), if t.Applying? then "" else t.reason)
  }

  function KeyOf(t: Step): OpKey
    requires t.Applying? || t.Remedying?
  {
    OpKey(t.who, if t.Applying? then ApplyKind else RemediateKind, t.key)
  }

  /** The current plan has not expired and is what planning the desired state yields. */
  predicate Fresh(c: Record, a: Authority) {
    && c.plans != []
    && var p := c.plans[|c.plans| - 1];
       a.now < p.expires && a.material == p.material
  }

  /** The handler's guards over what it read let the command through to the store. */
  predicate ReadsAdmit(t: Step)
    requires t.Applying? || t.Remedying?
  {
    && t.c.stage == (if t.Applying? then Planned else Blocked)
    && CurrentApproved(t.c) && Fresh(t.c, t.a)
    && (t.Remedying? ==> Current(t.c).material.blockers == [])
  }

  lemma {:induction false} ApplyingAccepts(s: Record, t: Step)
    requires t.Applying? && KeyOf(t) !in t.looked.byKey
    ensures if ReadsAdmit(t) then
              Do(s, t) == AcceptOperation(s, t.ifMatch, KeyOf(t), t.id, RequestOf(t), DecisionOf(t.c).value.id, s.stage)
            else Do(s, t).record == s && Do(s, t).reply.Refused?
  {
  }

  lemma {:induction false} RemedyingAccepts(s: Record, t: Step)
    requires t.Remedying? && KeyOf(t) !in t.looked.byKey
    ensures if ReadsAdmit(t) then
              Do(s, t) == AcceptOperation(s, t.ifMatch, KeyOf(t), t.id, RequestOf(t), DecisionOf(t.c).value.id,
                                          Remediating)
            else Do(s, t).record == s && Do(s, t).reply.Refused?
  {
  }

  lemma {:induction false} ReplayChangesNothing(s: Record, t: Step)
    requires (t.Applying? || t.Remedying?) && KeyOf(t) in t.looked.byKey
    ensures Do(s, t).record == s
  {
  }

  /** An apply or remediation changes nothing, or queues its operation for the approved plan it read. */
  lemma {:induction false} AcceptingQueues(s: Record, t: Step)
    requires t.Applying? || t.Remedying?
    ensures var n := Do(s, t).record;
            n == s || (CurrentApproved(t.c) && Fresh(t.c, t.a) && s.revision == t.ifMatch && !OperationActive(s)
                       && t.c.stage == (if t.Applying? then Planned else Blocked)
                       && Queues(s, n, KeyOf(t), t.id, NewOperation(KeyOf(t), RequestOf(t), DecisionOf(t.c).value.id)))
  {
    if KeyOf(t) in t.looked.byKey {
      ReplayChangesNothing(s, t);
    } else if t.Applying? {
      ApplyingAccepts(s, t);
    } else {
      RemedyingAccepts(s, t);
    }
    if CurrentApproved(t.c) {
      AcceptQueues(s, t.ifMatch, KeyOf(t), t.id, RequestOf(t), DecisionOf(t.c).value.id,
                   if t.Applying? then s.stage else Remediating);
    }
  }

  /** A decision on a plan that has none. */
  predicate Decides(s: Record, n: Record, d: Decision) {
    d.digest.planId !in s.decisions
    && n == s.(decisions := s.decisions[d.digest.planId := d], revision := s.revision + 1)
  }

  lemma {:induction false} DecidesIsLater(s: Record, n: Record, d: Decision)
    requires Decides(s, n, d)
    ensures Later(s, n)
  {
  }

  lemma {:induction false} ApprovingDecides(s: Record, t: Step)
    requires t.Approving?
    ensures var n := Do(s, t).record;
            n == s || (t.c.plans != [] && t.reviewed == DigestOf(Current(t.c)) && t.who != t.c.creator
                       && s.revision == t.ifMatch
                       && (t.c.stage == Planned || t.c.stage == Blocked)
                       && (t.verdict == Approved ==> Current(t.c).material.blockers == [] && Fresh(t.c, t.a))
                       && Decides(s, n, Decision(t.approval, t.reviewed, t.verdict, t.who)))
  {
  }

  /** A plan whose identifier and version are new, in place of the current one. */
  ghost predicate Supersedes(s: Record, n: Record, key: string, reason: string, p: Plan) {
    && key !in s.replans
    && (forall q :: q in s.plans ==> q.id != p.id && q.version != p.version)
    && n == s.(plans := s.plans + [p], replans := s.replans[key := reason], stage := InitialStage(p.material),
               revision := s.revision + 1)
  }

  lemma {:induction false} SupersedesIsLater(s: Record, n: Record, key: string, reason: string, p: Plan)
    requires Supersedes(s, n, key, reason, p)
    ensures Later(s, n)
  {
  }

  function PlanOf(t: Step): Plan
    requires t.Replanning?
  {
    Plan(t.id, if t.c.plans == [] then 1 else Current(t.c).version + 1, t.c.revision, t.m, t.expires)
  }

  lemma {:induction false} ReplanningSupersedes(s: Record, t: Step)
    requires t.Replanning?
    ensures var n := Do(s, t).record;
            n == s || (s.revision == t.ifMatch && !OperationActive(s)
                       && (t.c.stage == Planned || t.c.stage == Blocked || t.c.stage == Failed)
                       && Supersedes(s, n, t.key, t.reason, PlanOf(t)))
  {
  }

  lemma {:induction false} Unchanged(s: Record)
    ensures Later(s, s)
  {
  }

  lemma {:induction false} StepIsLater(s: Record, t: Step)
    ensures Later(s, Do(s, t).record)
  {
    var n := Do(s, t).record;
    Unchanged(s);
    if n == s {
    } else if t.Approving? {
      ApprovingDecides(s, t);
      DecidesIsLater(s, n, Decision(t.approval, t.reviewed, t.verdict, t.who));
    } else if t.Replanning? {
      ReplanningSupersedes(s, t);
      SupersedesIsLater(s, n, t.key, t.reason, PlanOf(t));
    } else if t.Applying? || t.Remedying? {
      AcceptingQueues(s, t);
      QueuesIsLater(s, n, KeyOf(t), t.id, NewOperation(KeyOf(t), RequestOf(t), DecisionOf(t.c).value.id));
    } else {
      OtherStepBookkeeping(s, t);
      BookkeepingIsLater(s, n);
    }
  }

  lemma {:induction false} LaterTransitive(a: Record, b: Record, c: Record)
    requires Later(a, b) && Later(b, c)
    ensures Later(a, c)
  {
  }

  /** Whatever a run has seen is earlier than where it stands, however commands interleaved. */
  lemma {:induction false} SeenIsEarlier(run: Run, c: Record)
    requires Seen(run, c)
    ensures Later(c, Last(run))
    decreases run
  {
    if c != Last(run) {
      SeenIsEarlier(run.prior, c);
      StepIsLater(Last(run.prior), run.step);
      LaterTransitive(c, Last(run.prior), Last(run));
    }
  }

  // ---------------------------------------------------------------------
  // What every run keeps
  // ---------------------------------------------------------------------

  /** The digest is that of a plan of this provisioning. */
  predicate Plans(s: Record, d: Digest) {
    1 <= d.version <= |s.plans| && DigestOf(s.plans[d.version - 1]) == d
  }

  predicate DecisionSound(s: Record, p: string, d: Decision) {
    && d.digest.planId == p
    && Plans(s, d.digest)
    && d.who != s.creator
    && (d.verdict == Approved ==> d.digest.material.blockers == [])
  }

  /** The operation carries a blocker-free plan of this provisioning, approved by someone other than its creator. */
  predicate Authorised(s: Record, o: Operation) {
    && Plans(s, o.digest)
    && o.digest.material.blockers == []
    && o.request.digest == o.digest
    && o.digest.planId in s.decisions
    && var d := s.decisions[o.digest.planId];
       d.verdict == Approved && d.digest == o.digest && d.id == o.approval && d.who != s.creator
  }

  ghost predicate VersionsContiguous(s: Record) {
    s.plans != [] && forall i :: 0 <= i < |s.plans| ==> s.plans[i].version == i + 1
  }

  ghost predicate DecisionsSound(s: Record) {
    forall p :: p in s.decisions ==> DecisionSound(s, p, s.decisions[p])
  }

  ghost predicate OperationsAuthorised(s: Record) {
    forall o :: o in s.ops ==> Authorised(s, s.ops[o])
  }

  ghost predicate KeysSound(s: Record) {
    forall k :: k in s.byKey ==>
      s.byKey[k] in s.ops && s.ops[s.byKey[k]].who == k.who && s.ops[s.byKey[k]].kind == k.kind
  }

  ghost predicate Sound(s: Record) {
    VersionsContiguous(s) && DecisionsSound(s) && OperationsAuthorised(s) && KeysSound(s)
  }

  lemma {:induction false} CurrentIsPlanned(c: Record, s: Record)
    requires VersionsContiguous(c) && Later(c, s)
    ensures Plans(c, DigestOf(Current(c))) && Plans(s, DigestOf(Current(c)))
  {
  }

  lemma {:induction false} DecidesSound(s: Record, n: Record, d: Decision)
    requires Sound(s) && Decides(s, n, d) && DecisionSound(s, d.digest.planId, d)
    ensures Sound(n)
  {
  }

  /** Only an approved, blocker-free plan reaches the store. */
  lemma {:induction false} AcceptedIsAuthorised(c: Record, s: Record)
    requires Sound(c) && Later(c, s) && CurrentApproved(c)
    ensures Plans(s, DigestOf(Current(c))) && Current(c).material.blockers == []
    ensures Current(c).id in s.decisions && s.decisions[Current(c).id] == DecisionOf(c).value
    ensures DecisionOf(c).value.who != s.creator
  {
    CurrentIsPlanned(c, s);
  }

  lemma {:induction false} QueuesSound(s: Record, n: Record, k: OpKey, id: string, o: Operation)
    requires Sound(s) && Queues(s, n, k, id, o) && Authorised(s, o)
    ensures Sound(n)
  {
    forall i | i in n.ops
      ensures Authorised(n, n.ops[i])
    {
      assert Authorised(s, n.ops[i]);
    }
    QueuesKeysSound(s, n, k, id, o);
  }

  lemma {:induction false} QueuesKeysSound(s: Record, n: Record, k: OpKey, id: string, o: Operation)
    requires KeysSound(s) && Queues(s, n, k, id, o)
    ensures KeysSound(n)
  {
  }

  /** The unique version lets a replan through only on the plan it follows. */
  lemma {:induction false} NextVersion(s: Record, c: Record, p: Plan)
    requires VersionsContiguous(s) && VersionsContiguous(c) && c.plans <= s.plans
    requires p.version == Current(c).version + 1
    ensures (exists q :: q in s.plans && q.version == p.version) || (p.version == |s.plans| + 1 && c.plans == s.plans)
  {
    if |c.plans| < |s.plans| {
      assert s.plans[|c.plans|] in s.plans && s.plans[|c.plans|].version == p.version;
    }
  }

  lemma {:induction false} SupersedesSound(s: Record, n: Record, key: string, reason: string, p: Plan)
    requires Sound(s) && Supersedes(s, n, key, reason, p) && p.version == |s.plans| + 1
    ensures Sound(n)
  {
  }

  lemma {:induction false} BookkeepingSound(s: Record, n: Record)
    requires Sound(s) && Bookkeeping(s, n)
    ensures Sound(n)
  {
    forall o | o in n.ops
      ensures Authorised(n, n.ops[o])
    {
      assert o in s.ops.Keys && Authorised(s, s.ops[o]);
    }
  }

  lemma {:induction false} CommandSound(s: Record, t: Step)
    requires PlansOrDecides(t) && Sound(s) && Sound(t.c) && Later(t.c, s)
    ensures Sound(Do(s, t).record)
  {
    var n := Do(s, t).record;
    if n == s {
    } else if t.Approving? {
      ApprovingDecides(s, t);
      CurrentIsPlanned(t.c, s);
      DecidesSound(s, n, Decision(t.approval, t.reviewed, t.verdict, t.who));
    } else if t.Replanning? {
      ReplanningSupersedes(s, t);
      NextVersion(s, t.c, PlanOf(t));
      SupersedesSound(s, n, t.key, t.reason, PlanOf(t));
    } else {
      AcceptingQueues(s, t);
      AcceptedIsAuthorised(t.c, s);
      QueuesSound(s, n, KeyOf(t), t.id, NewOperation(KeyOf(t), RequestOf(t), DecisionOf(t.c).value.id));
    }
  }

  lemma {:induction false} SeenSound(run: Run, c: Record)
    requires Legal(run) && Seen(run, c)
    ensures Sound(c)
    decreases run, 1
  {
    if c == Last(run) {
      AlwaysSound(run);
    } else {
      SeenSound(run.prior, c);
    }
  }

  /**
   In every run, whatever was read when and whatever If-Match was given: plan versions are
   1, 2, 3, ..., every decision is of one of these plans by someone other than the creator,
   and every operation ever accepted carries a blocker-free plan with an APPROVED decision
   for its digest by someone other than the creator.
   */
  lemma {:induction false} AlwaysSound(run: Run)
    requires Legal(run)
    ensures Sound(Last(run))
    decreases run, 0
  {
    if run.Then? {
      var s, t := Last(run.prior), run.step;
      AlwaysSound(run.prior);
      if PlansOrDecides(t) {
        SeenSound(run.prior, t.c);
        SeenIsEarlier(run.prior, t.c);
        CommandSound(s, t);
      } else {
        OtherStepBookkeeping(s, t);
        BookkeepingSound(s, Last(run));
      }
    }
  }
}
