/**
 What each command answers and does, said of the record's fields: the objections to a
 request in the order they are raised, first those to what was read and then the store's,
 and the change when there is none.
 */
module ProvisioningAnswers {
  import opened Common
  import opened Provisioning
  import opened ProvisioningRuns

  datatype Objection = Objection(holds: bool, code: Code)

  predicate Silent(os: seq<Objection>) {
    forall i :: 0 <= i < |os| ==> !os[i].holds
  }

  /** The code is that of the first objection raised. */
  predicate Raised(os: seq<Objection>, code: Code) {
    exists i :: 0 <= i < |os| && os[i].holds && os[i].code == code && forall j :: 0 <= j < i ==> !os[j].holds
  }

  predicate Command(t: Step) {
    PlansOrDecides(t) || t.Withdrawing? || t.Retrying?
  }

  predicate ReadApproved(c: Record) {
    && c.plans != []
    && var id := c.plans[|c.plans| - 1].id;
       id in c.decisions && c.decisions[id].verdict == Approved
  }

  /** The decision read is for the plan read: its identity, its base and its material. */
  predicate ReadForThisPlan(c: Record) {
    && c.plans != []
    && var p := c.plans[|c.plans| - 1];
       p.id in c.decisions && c.decisions[p.id].digest == Digest(p.id, p.version, p.base, p.material)
  }

  /** Objections to what the command read. */
  function ReadObjections(t: Step): seq<Objection>
    requires Command(t)
  {
    match t
    case Approving(c, _, who, reviewed, verdict, _, a) =>
      [ Objection(who == c.creator, SelfApproval),
        Objection(c.stage !in {Planned, Blocked}, StateConflict),
        Objection(c.plans == [] || reviewed != DigestOf(Current(c)), DigestMismatch),
        Objection(verdict == Approved && reviewed.material.blockers != [], PlanBlocked),
        Objection(verdict == Approved && !Fresh(c, a), PlanStale) ]
    case Applying(c, _, _, _, _, _, a) =>
      [ Objection(c.stage != Planned, StateConflict),
        Objection(!ReadApproved(c), NotApproved),
        Objection(!ReadForThisPlan(c), DigestMismatch),
        Objection(!Fresh(c, a), PlanStale) ]
    case Remedying(c, _, _, _, _, _, _, a) =>
      [ Objection(c.stage != Blocked, StateConflict),
        Objection(c.plans == [] || Current(c).material.blockers != [], ChangeRequired),
        Objection(!ReadApproved(c) || !ReadForThisPlan(c), NotApproved),
        Objection(!Fresh(c, a), PlanStale) ]
    case Replanning(c, _, _, _, _, _, _, _) =>
      [ Objection(c.stage !in {Planned, Blocked, Failed}, StateConflict),
        Objection(OperationActive(c), InProgressAlready) ]
    case Withdrawing(c, _) =>
      [ Objection(c.stage !in {Draft, Planned, Blocked, Failed}, StateConflict),
        Objection(OperationActive(c), InProgressAlready) ]
    case Retrying(o, c, id, _, a) =>
      var checked := id in o.ops && o.ops[id].retryable;
      [ Objection(id !in o.ops, NotFound),
        Objection(checked && c.stage !in {Failed, Blocked}, StateConflict),
        Objection(checked && (!Fresh(c, a) || DigestOf(Current(c)) != o.ops[id].digest), PlanStale) ]
  }

  /** Objections of the store, to the record the command commits to. */
  function StoreObjections(s: Record, t: Step): seq<Objection>
    requires Command(t)
  {
    match t
    case Approving(_, m, _, reviewed, _, _, _) =>
      [ Objection(s.revision != m, RevisionMismatch),
        Objection(reviewed.planId in s.decisions, AlreadyDecided) ]
    case Withdrawing(_, m) =>
      [ Objection(s.revision != m, RevisionMismatch),
        Objection(OperationActive(s), InProgressAlready) ]
    case Replanning(_, _, m, _, _, id, _, _) =>
      [ Objection(s.revision != m, RevisionMismatch),
        Objection(OperationActive(s), InProgressAlready),
        Objection(exists q :: q in s.plans && (q.id == id || q.version == PlanOf(t).version), Unavailable) ]
    case Retrying(_, _, id, _, _) =>
      [ Objection(id !in s.ops, NotFound),
        Objection(id in s.ops && !(s.ops[id].retryable && s.ops[id].status in {OpFailed, OpBlocked}), NotRetryable) ]
    case _ =>
      [ Objection(s.revision != t.ifMatch, RevisionMismatch),
        Objection(OperationActive(s), InProgressAlready),
        Objection(t.id in s.ops, Unavailable) ]
  }

  /** Objections are raised in turn. */
  lemma {:induction false} Settle(os: seq<Objection>)
    requires 1 < |os| <= 5
    ensures Silent(os) <==> !os[0].holds && !os[1].holds && (|os| > 2 ==> !os[2].holds) && (|os| > 3 ==> !os[3].holds)
                            && (|os| > 4 ==> !os[4].holds)
    ensures os[0].holds ==> Raised(os, os[0].code)
    ensures !os[0].holds && os[1].holds ==> Raised(os, os[1].code)
    ensures |os| > 2 && !os[0].holds && !os[1].holds && os[2].holds ==> Raised(os, os[2].code)
    ensures |os| > 3 && !os[0].holds && !os[1].holds && !os[2].holds && os[3].holds ==> Raised(os, os[3].code)
    ensures |os| > 4 && !os[0].holds && !os[1].holds && !os[2].holds && !os[3].holds && os[4].holds ==>
              Raised(os, os[4].code)
  {
  }

  /** No change, and the first objection for an answer. */
  predicate Objected(s: Record, r: Result, os: seq<Objection>) {
    r.record == s && r.reply.Refused? && Raised(os, r.reply.code)
  }

  /** A decision is refused for the first objection, and otherwise recorded for the plan read. */
  lemma {:induction false} DecisionAnswered(s: Record, t: Step)
    requires t.Approving?
    ensures var (read, store) := (ReadObjections(t), StoreObjections(s, t));
            if !Silent(read) then Objected(s, Do(s, t), read)
            else if !Silent(store) then Objected(s, Do(s, t), store)
            else
              var d := Decision(t.approval, t.reviewed, t.verdict, t.who);
              Do(s, t) == Result(s.(decisions := s.decisions[t.reviewed.planId := d], revision := s.revision + 1), Done)
  {
    Settle(ReadObjections(t));
    Settle(StoreObjections(s, t));
  }

  /** What an apply or remediation asked for under a key is answered with once the key has its operation. */
  predicate Recalls(c: Record, s: Record, r: Result, known: Record, k: OpKey, reason: string)
    requires k in known.byKey
  {
    var id := known.byKey[k];
    r == Result(s, if c.plans != [] && id in known.ops
                      && known.ops[id].request == Request(DigestOf(c.plans[|c.plans| - 1]), reason)
                   then Accepted(id) else Refused(KeyReused))
  }

  /** One operation for the plan and approval read; the state moves only for a remediation. */
  predicate QueuedFor(s: Record, t: Step, k: OpKey, reason: string, r: Result)
    requires t.Applying? || t.Remedying?
  {
    && t.c.plans != [] && t.c.plans[|t.c.plans| - 1].id in t.c.decisions
    && var p := t.c.plans[|t.c.plans| - 1];
       var o := Operation(k.kind, DigestOf(p), t.c.decisions[p.id].id, t.who, Request(DigestOf(p), reason), Queued,
                          false, 1, None);
       r == Result(s.(ops := s.ops[t.id := o], byKey := s.byKey[k := t.id], revision := s.revision + 1,
                      stage := if t.Applying? then s.stage else Remediating), Accepted(t.id))
  }

  /** Answered with the operation its key already has, refused for the first objection, or queued. */
  predicate QueuesOrTells(s: Record, t: Step, k: OpKey, reason: string, r: Result)
    requires t.Applying? || t.Remedying?
  {
    if k in t.looked.byKey then Recalls(t.c, s, r, t.looked, k, reason)
    else if !Silent(ReadObjections(t)) then Objected(s, r, ReadObjections(t))
    else if k in s.byKey then Recalls(t.c, s, r, s, k, reason)
    else if !Silent(StoreObjections(s, t)) then Objected(s, r, StoreObjections(s, t))
    else QueuedFor(s, t, k, reason, r)
  }

  lemma {:induction false} ApplyAnswered(s: Record, t: Step)
    requires t.Applying?
    ensures QueuesOrTells(s, t, OpKey(t.who, ApplyKind, t.key), "", Do(s, t))
  {
    Settle(ReadObjections(t));
    Settle(StoreObjections(s, t));
    if KeyOf(t) !in t.looked.byKey {
      ApplyingAccepts(s, t);
    }
  }

  lemma {:induction false} RemediationAnswered(s: Record, t: Step)
    requires t.Remedying?
    ensures QueuesOrTells(s, t, OpKey(t.who, RemediateKind, t.key), t.reason, Do(s, t))
  {
    Settle(ReadObjections(t));
    Settle(StoreObjections(s, t));
    if KeyOf(t) !in t.looked.byKey {
      RemedyingAccepts(s, t);
    }
  }

  /** The store refuses a new plan for its first objection, or adds it. */
  lemma {:induction false} PlanAnswered(s: Record, t: Step)
    requires t.Replanning? && t.key !in s.replans
    ensures var store := StoreObjections(s, t);
            var r := SupersedePlan(s, t.ifMatch, t.key, t.reason, PlanOf(t));
            if !Silent(store) then Objected(s, r, store) else r == Result(Superseded(s, t), Done)
  {
    Settle(StoreObjections(s, t));
  }

  /** The next version after the plan read, based on the revision read. */
  function Superseded(s: Record, t: Step): Record
    requires t.Replanning?
  {
    var version := if t.c.plans == [] then 1 else t.c.plans[|t.c.plans| - 1].version + 1;
    s.(plans := s.plans + [Plan(t.id, version, t.c.revision, t.m, t.expires)], replans := s.replans[t.key := t.reason],
       stage := if t.m.blockers == [] then Planned else Blocked, revision := s.revision + 1)
  }

  /** A replan is answered as before under a key that made a plan, refused, or adds the plan. */
  lemma {:induction false} ReplanAnswered(s: Record, t: Step)
    requires t.Replanning?
    ensures var (read, store) := (ReadObjections(t), StoreObjections(s, t));
            if t.key in t.looked.replans then
              Do(s, t) == Result(s, if t.looked.replans[t.key] == t.reason then Done else Refused(KeyReused))
            else if !Silent(read) then Objected(s, Do(s, t), read)
            else if t.key in s.replans then
              Do(s, t) == Result(s, if s.replans[t.key] == t.reason then Done else Refused(KeyReused))
            else if !Silent(store) then Objected(s, Do(s, t), store)
            else Do(s, t) == Result(Superseded(s, t), Done)
  {
    Settle(ReadObjections(t));
    if t.key !in s.replans {
      PlanAnswered(s, t);
    }
  }

  lemma {:induction false} WithdrawalAnswered(s: Record, t: Step)
    requires t.Withdrawing?
    ensures var (read, store) := (ReadObjections(t), StoreObjections(s, t));
            if !Silent(read) then Objected(s, Do(s, t), read)
            else if !Silent(store) then Objected(s, Do(s, t), store)
            else
              Do(s, t) == Result(s.(stage := Cancelled, status := CancelledStatus, revision := s.revision + 1), Done)
  {
    Settle(ReadObjections(t));
    Settle(StoreObjections(s, t));
  }

  /** A retry is answered with the attempt its key queued, refused, or queues the next attempt. */
  lemma {:induction false} RetryAnswered(s: Record, t: Step)
    requires t.Retrying?
    ensures var (read, store) := (ReadObjections(t), StoreObjections(s, t));
            if !Silent(read) then Objected(s, Do(s, t), read)
            else if t.id in s.ops && s.ops[t.id].retryKey == Some(t.key) then Do(s, t) == Result(s, Accepted(t.id))
            else if !Silent(store) then Objected(s, Do(s, t), store)
            else
              && t.id in s.ops
              && var o := s.ops[t.id];
                 var next := o.(status := Queued, attempt := o.attempt + 1, retryable := false,
                                retryKey := Some(t.key));
                 Do(s, t) == Result(s.(ops := s.ops[t.id := next], revision := s.revision + 1), Accepted(t.id))
  {
    Settle(ReadObjections(t));
    Settle(StoreObjections(s, t));
  }

  /** A cancellation ends a queued operation and blocks, and asks a running one to stop. */
  lemma {:induction false} CancellationAnswered(s: Record, id: string)
    ensures id !in s.ops ==> Do(s, Cancelling(id)) == Result(s, Refused(NotFound))
    ensures id in s.ops && s.ops[id].status == Queued ==>
              Do(s, Cancelling(id)) ==
                Result(s.(ops := s.ops[id := s.ops[id].(status := OpCancelled, retryable := false)], stage := Blocked,
                          revision := s.revision + 1), Accepted(id))
    ensures id in s.ops && s.ops[id].status in {Running, CancelRequested} ==>
              Do(s, Cancelling(id)) ==
                Result(s.(ops := s.ops[id := s.ops[id].(status := CancelRequested)]), Accepted(id))
    ensures id in s.ops && s.ops[id].status in {OpSucceeded, OpFailed, OpBlocked, OpCancelled} ==>
              Do(s, Cancelling(id)) == Result(s, Refused(StateConflict))
  {
    if id in s.ops && s.ops[id].status == CancelRequested {
      assert s.ops[id := s.ops[id].(status := CancelRequested)] == s.ops;
    }
  }

  // ---------------------------------------------------------------------
  // Staleness
  // ---------------------------------------------------------------------

  /** A command that judges the plan it read: to apply, to remediate, to approve, or to retry what it read retryable. */
  predicate Judges(t: Step) {
    || t.Applying? || t.Remedying?
    || (t.Approving? && t.verdict == Approved)
    || (t.Retrying? && t.id in t.o.ops && t.o.ops[t.id].retryable)
  }

  /** Whatever a judged command changes, the plan it read had not expired and was what planning yielded then. */
  lemma {:induction false} FreshWhenTaken(s: Record, t: Step)
    requires Judges(t) && Do(s, t).record != s
    ensures t.c.plans != []
    ensures var p := t.c.plans[|t.c.plans| - 1]; t.a.now < p.expires && t.a.material == p.material
  {
    if t.Applying? || t.Remedying? {
      AcceptingQueues(s, t);
    } else if t.Approving? {
      ApprovingDecides(s, t);
    } else {
      RetryAnswered(s, t);
      Settle(ReadObjections(t));
    }
  }

  /** No other objection to what was read, and for a retry its operation's plan is the current one. */
  predicate OtherwiseAdmitted(t: Step)
    requires Judges(t)
  {
    && t.c.plans != []
    && (forall i :: 0 <= i < |ReadObjections(t)| && ReadObjections(t)[i].code != PlanStale ==>
          !ReadObjections(t)[i].holds)
    && (t.Applying? || t.Remedying? ==> KeyOf(t) !in t.looked.byKey)
    && (t.Retrying? ==> t.o.ops[t.id].digest == DigestOf(Current(t.c)))
  }

  /** One that passes every other guard is told the plan is stale exactly when it expired or planning yields another. */
  lemma {:induction false} StaleExactlyWhen(s: Record, t: Step)
    requires Judges(t) && OtherwiseAdmitted(t)
    ensures var p := t.c.plans[|t.c.plans| - 1];
            Do(s, t) == Result(s, Refused(PlanStale)) <==> p.expires <= t.a.now || t.a.material != p.material
  {
    var read, last := ReadObjections(t), |ReadObjections(t)| - 1;
    assert forall i :: 0 <= i < last ==> !read[i].holds;
    assert read[last].code == PlanStale && (read[last].holds <==> !Fresh(t.c, t.a));
    if read[last].holds {
      StaleRefused(s, t);
    } else {
      FreshNotRefused(s, t);
    }
  }

  lemma {:induction false} StaleRefused(s: Record, t: Step)
    requires Judges(t) && OtherwiseAdmitted(t) && !Fresh(t.c, t.a)
    ensures Do(s, t) == Result(s, Refused(PlanStale))
  {
    assert !ReadObjections(t)[0].holds && !ReadObjections(t)[1].holds;
    if t.Applying? || t.Remedying? {
      assert !ReadObjections(t)[2].holds;
    } else if t.Approving? {
      assert !ReadObjections(t)[2].holds && !ReadObjections(t)[3].holds;
    }
  }

  lemma {:induction false} FreshNotRefused(s: Record, t: Step)
    requires Judges(t) && Fresh(t.c, t.a) && (t.Retrying? ==> t.o.ops[t.id].digest == DigestOf(Current(t.c)))
    ensures Do(s, t).reply != Refused(PlanStale)
  {
  }
}
