/**
 The commands as they run: guards over the record read, then a transaction on the stored
 one. Each is proved to be the step of the same name.
 */
module ProvisioningCommands {
  import opened Common
  import opened Provisioning

  class Store {
    var row: Record

    constructor (creator: string, id: string, m: Material, expires: int)
      ensures row == Created(creator, id, m, expires)
    {
      row := Created(creator, id, m, expires);
    }

    method BumpRevision()
      modifies this
      ensures row == old(row).(revision := old(row).revision + 1)
    {
      row := row.(revision := row.revision + 1);
    }

    method Approve(c: Record, ifMatch: nat, who: string, reviewed: Digest, verdict: Verdict, approval: string,
                   a: Authority)
      returns (reply: Reply)
      modifies this
      ensures Result(row, reply) == Do(old(row), Approving(c, ifMatch, who, reviewed, verdict, approval, a))
    {
      if who == c.creator {
        return Refused(SelfApproval);
      }
      if c.stage != Planned && c.stage != Blocked {
        return Refused(StateConflict);
      }
      if c.plans == [] || reviewed != DigestOf(Current(c)) {
        return Refused(DigestMismatch);
      }
      if verdict == Approved && Current(c).material.blockers != [] {
        return Refused(PlanBlocked);
      }
      if verdict == Approved && Stale(c, a) {
        return Refused(PlanStale);
      }
      if row.revision != ifMatch {
        return Refused(RevisionMismatch);
      }
      if reviewed.planId in row.decisions {
        return Refused(AlreadyDecided);
      }
      row := row.(decisions := row.decisions[reviewed.planId := Decision(approval, reviewed, verdict, who)]);
      BumpRevision();
      return Done;
    }

    /** The transaction shared by apply and remediate; `stage` is None when the state is left alone. */
    method Accept(ifMatch: nat, k: OpKey, id: string, request: Request, approval: string, stage: Option<Stage>)
      returns (reply: Reply)
      modifies this
      ensures Result(row, reply) ==
              AcceptOperation(old(row), ifMatch, k, id, request, approval,
                              if stage.Some? then stage.value else old(row).stage)
    {
      if k in row.byKey {
        if row.byKey[k] !in row.ops || row.ops[row.byKey[k]].request != request {
          return Refused(KeyReused);
        }
        return Accepted(row.byKey[k]);
      }
      if row.revision != ifMatch {
        return Refused(RevisionMismatch);
      }
      if OperationActive(row) {
        return Refused(InProgressAlready);
      }
      if id in row.ops {
        return Refused(Unavailable);
      }
      var o := Operation(k.kind, request.digest, approval, k.who, request, Queued, false, 1, None);
      row := row.(ops := row.ops[id := o], byKey := row.byKey[k := id]);
      if stage.Some? {
        row := row.(stage := stage.value);
      }
      BumpRevision();
      return Accepted(id);
    }

    method Apply(c: Record, looked: Record, ifMatch: nat, who: string, key: string, id: string, a: Authority)
      returns (reply: Reply)
      modifies this
      ensures Result(row, reply) == Do(old(row), Applying(c, looked, ifMatch, who, key, id, a))
    {
      var k := OpKey(who, ApplyKind, key);
      if k in looked.byKey {
        return Replay(c, looked, row, k, "").reply;
      }
      if c.stage != Planned {
        return Refused(StateConflict);
      }
      var decision := DecisionOf(c);
      if c.plans == [] || decision.None? || decision.value.verdict != Approved {
        return Refused(NotApproved);
      }
      if decision.value.digest != DigestOf(Current(c)) {
        return Refused(DigestMismatch);
      }
      if Stale(c, a) {
        return Refused(PlanStale);
      }
      reply := Accept(ifMatch, k, id, Request(DigestOf(Current(c)), ""), decision.value.id, None);
    }

    method Remediate(c: Record, looked: Record, ifMatch: nat, who: string, key: string, reason: string, id: string,
                     a: Authority)
      returns (reply: Reply)
      modifies this
      ensures Result(row, reply) == Do(old(row), Remedying(c, looked, ifMatch, who, key, reason, id, a))
    {
      var k := OpKey(who, RemediateKind, key);
      if k in looked.byKey {
        return Replay(c, looked, row, k, reason).reply;
      }
      if c.stage != Blocked {
        return Refused(StateConflict);
      }
      if c.plans == [] || Current(c).material.blockers != [] {
        return Refused(ChangeRequired);
      }
      var decision := DecisionOf(c);
      if decision.None? || decision.value.verdict != Approved || decision.value.digest != DigestOf(Current(c)) {
        return Refused(NotApproved);
      }
      if Stale(c, a) {
        return Refused(PlanStale);
      }
      reply := Accept(ifMatch, k, id, Request(DigestOf(Current(c)), reason), decision.value.id, Some(Remediating));
    }

    method Supersede(ifMatch: nat, key: string, reason: string, p: Plan) returns (reply: Reply)
      modifies this
      ensures Result(row, reply) == SupersedePlan(old(row), ifMatch, key, reason, p)
    {
      if row.revision != ifMatch {
        return Refused(RevisionMismatch);
      }
      if OperationActive(row) {
        return Refused(InProgressAlready);
      }
      if (exists q :: q in row.plans && (q.id == p.id || q.version == p.version)) || key in row.replans {
        return Refused(Unavailable);
      }
      row := row.(plans := row.plans + [p], replans := row.replans[key := reason]);
      row := row.(stage := if p.material.blockers == [] then Planned else Blocked);
      BumpRevision();
      return Done;
    }

    method Replan(c: Record, looked: Record, ifMatch: nat, key: string, reason: string, id: string, m: Material,
                  expires: int)
      returns (reply: Reply)
      modifies this
      ensures Result(row, reply) == Do(old(row), Replanning(c, looked, ifMatch, key, reason, id, m, expires))
    {
      if key in looked.replans {
        return if looked.replans[key] == reason then Done else Refused(KeyReused);
      }
      if c.stage != Planned && c.stage != Blocked && c.stage != Failed {
        return Refused(StateConflict);
      }
      if OperationActive(c) {
        return Refused(InProgressAlready);
      }
      var next := 1;
      if c.plans != [] {
        next := Current(c).version + 1;
      }
      reply := Supersede(ifMatch, key, reason, Plan(id, next, c.revision, m, expires));
      if reply.Refused? && key in row.replans {
        return if row.replans[key] == reason then Done else Refused(KeyReused);
      }
    }

    method Withdraw(c: Record, ifMatch: nat) returns (reply: Reply)
      modifies this
      ensures Result(row, reply) == Do(old(row), Withdrawing(c, ifMatch))
    {
      if c.stage != Draft && c.stage != Planned && c.stage != Blocked && c.stage != Failed {
        return Refused(StateConflict);
      }
      if OperationActive(c) {
        return Refused(InProgressAlready);
      }
      if row.revision != ifMatch {
        return Refused(RevisionMismatch);
      }
      if OperationActive(row) {
        return Refused(InProgressAlready);
      }
      row := row.(status := CancelledStatus, stage := Cancelled);
      BumpRevision();
      return Done;
    }

    method Retry(o: Record, c: Record, id: string, key: string, a: Authority) returns (reply: Reply)
      modifies this
      ensures Result(row, reply) == Do(old(row), Retrying(o, c, id, key, a))
    {
      if id !in o.ops {
        return Refused(NotFound);
      }
      if o.ops[id].retryable {
        if c.stage != Failed && c.stage != Blocked {
          return Refused(StateConflict);
        }
        if Stale(c, a) || DigestOf(Current(c)) != o.ops[id].digest {
          return Refused(PlanStale);
        }
      }
      if id !in row.ops {
        return Refused(NotFound);
      }
      var op := row.ops[id];
      if op.retryKey == Some(key) {
        return Accepted(id);
      }
      if !op.retryable || (op.status != OpFailed && op.status != OpBlocked) {
        return Refused(NotRetryable);
      }
      op := op.(status := Queued, attempt := op.attempt + 1, retryable := false, retryKey := Some(key));
      row := row.(ops := row.ops[id := op]);
      BumpRevision();
      return Accepted(id);
    }
  }
}
