/**
 The lifecycle of one tenant provisioning: plan, decide, apply, replan, withdraw,
 remediate and retry over a revisioned record, with the executor that runs the accepted
 operations beside them.

 A command reads the record, checks what it read, and commits to the store, which compares
 the If-Match revision only. What was read and what is committed to are therefore two
 records, and every command below takes both.
 */
module Provisioning {
  import opened Common

  // ---------------------------------------------------------------------
  // The stored record
  // ---------------------------------------------------------------------

  /** The canonical state. */
  datatype Stage =
    | Draft | Validating | Planned | Registering | ConfiguringContext | ProvisioningEntitlements
    | ProvisioningProviders | ValidatingSecurity | VerifyingReadiness | Blocked | Remediating
    | Ready | Active | Failed | Cancelled | Deprovisioned

  /** The pipeline's own status. */
  datatype Status = PlanStatus | ApplyStatus | ReconcileStatus | ReadyStatus | ActiveStatus | FailedStatus
    | CancelledStatus

  /** What planning yields: the steps and checks, and the blockers among them. */
  datatype Material = Material(body: string, blockers: seq<string>)

  datatype Plan = Plan(id: string, version: nat, base: nat, material: Material, expires: int)

  /** A plan's digest binds its identity, base revision and material; the hash is taken as injective. */
  datatype Digest = Digest(planId: string, version: nat, base: nat, material: Material)

  datatype Verdict = Approved | Rejected | ChangesRequested

  datatype Decision = Decision(id: string, digest: Digest, verdict: Verdict, who: string)

  datatype Kind = ApplyKind | RemediateKind

  datatype OpStatus = Queued | Running | CancelRequested | OpSucceeded | OpFailed | OpBlocked | OpCancelled

  /** What the request of an operation hashes: the current plan's digest and the reason given. */
  datatype Request = Request(digest: Digest, reason: string)

  datatype Operation = Operation(kind: Kind, digest: Digest, approval: string, who: string, request: Request,
                                 status: OpStatus, retryable: bool, attempt: nat, retryKey: Option<string>)

  datatype OpKey = OpKey(who: string, kind: Kind, key: string)

  /**
   The provisioning with its plans in order (the last is the one not superseded), the one
   decision each plan may have, its operations and their idempotency keys. `owed` counts
   executors that have yet to write the block they decided on.
   */
  datatype Record = Record(creator: string, revision: nat, stage: Stage, status: Status, plans: seq<Plan>,
                           decisions: map<string, Decision>, ops: map<string, Operation>, byKey: map<OpKey, string>,
                           replans: map<string, string>, owed: nat)

  function DigestOf(p: Plan): Digest {
    Digest(p.id, p.version, p.base, p.material)
  }

  function Current(c: Record): Plan
    requires c.plans != []
  {
    c.plans[|c.plans| - 1]
  }

  predicate InProgress(o: Operation) {
    o.status == Queued || o.status == Running || o.status == CancelRequested
  }

  predicate OperationActive(s: Record) {
    exists o :: o in s.ops && InProgress(s.ops[o])
  }

  function InitialStage(m: Material): Stage {
    if m.blockers == [] then Planned else Blocked
  }

  function Created(creator: string, id: string, m: Material, expires: int): Record {
    Record(creator, 1, InitialStage(m), PlanStatus, [Plan(id, 1, 1, m, expires)], map[], map[], map[], map[], 0)
  }

  // ---------------------------------------------------------------------
  // Commands
  // ---------------------------------------------------------------------

  datatype Code =
    | RevisionMismatch | StateConflict | SelfApproval | DigestMismatch | PlanBlocked | PlanStale | AlreadyDecided
    | NotApproved | KeyReused | InProgressAlready | ChangeRequired | NotRetryable | NotFound | Unavailable

  datatype Reply = Done | Accepted(op: string) | Refused(code: Code)

  datatype Result = Result(record: Record, reply: Reply)

  function Refuse(s: Record, code: Code): Result {
    Result(s, Refused(code))
  }

  /** Authoritative state at a check: the time, and what planning the desired state yields now. */
  datatype Authority = Authority(now: int, material: Material)

  predicate Stale(c: Record, a: Authority) {
    || c.plans == []
    || Current(c).expires <= a.now
    || a.material != Current(c).material
  }

  function Approve(c: Record, s: Record, ifMatch: nat, who: string, reviewed: Digest, verdict: Verdict,
                   approval: string, a: Authority): Result {
    if who == c.creator then Refuse(s, SelfApproval)
    else if c.stage != Planned && c.stage != Blocked then Refuse(s, StateConflict)
    else if c.plans == [] || reviewed != DigestOf(Current(c)) then Refuse(s, DigestMismatch)
    else if verdict == Approved && Current(c).material.blockers != [] then Refuse(s, PlanBlocked)
    else if verdict == Approved && Stale(c, a) then Refuse(s, PlanStale)
    else RecordPlanDecision(s, ifMatch, Decision(approval, reviewed, verdict, who))
  }

  function RecordPlanDecision(s: Record, ifMatch: nat, d: Decision): Result {
    if s.revision != ifMatch then Refuse(s, RevisionMismatch)
    else if d.digest.planId in s.decisions then Refuse(s, AlreadyDecided)
    else Result(s.(decisions := s.decisions[d.digest.planId := d], revision := s.revision + 1), Done)
  }

  /** The decision on the current plan, as the record is read. */
  function DecisionOf(c: Record): Option<Decision> {
    if c.plans != [] && Current(c).id in c.decisions then Some(c.decisions[Current(c).id]) else None
  }

  predicate CurrentApproved(c: Record) {
    && c.plans != []
    && DecisionOf(c).Some?
    && DecisionOf(c).value.verdict == Approved
    && DecisionOf(c).value.digest == DigestOf(Current(c))
  }

  function Apply(c: Record, looked: Record, s: Record, ifMatch: nat, who: string, key: string, id: string,
                 a: Authority): Result {
    var k := OpKey(who, ApplyKind, key);
    if k in looked.byKey then Replay(c, looked, s, k, "")
    else if c.stage != Planned then Refuse(s, StateConflict)
    else if c.plans == [] || DecisionOf(c).None? || DecisionOf(c).value.verdict != Approved then Refuse(s, NotApproved)
    else if DecisionOf(c).value.digest != DigestOf(Current(c)) then Refuse(s, DigestMismatch)
    else if Stale(c, a) then Refuse(s, PlanStale)
    else AcceptOperation(s, ifMatch, k, id, Request(DigestOf(Current(c)), ""), DecisionOf(c).value.id, s.stage)
  }

  function Remediate(c: Record, looked: Record, s: Record, ifMatch: nat, who: string, key: string, reason: string,
                     id: string, a: Authority): Result {
    var k := OpKey(who, RemediateKind, key);
    if k in looked.byKey then Replay(c, looked, s, k, reason)
    else if c.stage != Blocked then Refuse(s, StateConflict)
    else if c.plans == [] || Current(c).material.blockers != [] then Refuse(s, ChangeRequired)
    else if !CurrentApproved(c) then Refuse(s, NotApproved)
    else if Stale(c, a) then Refuse(s, PlanStale)
    else AcceptOperation(s, ifMatch, k, id, Request(DigestOf(Current(c)), reason), DecisionOf(c).value.id, Remediating)
  }

  /**
   Answer with the operation a key created, or a conflict when the request differs. The key is
   looked up after the record is read, so in another record, `looked`.
   */
  function Replay(c: Record, looked: Record, s: Record, k: OpKey, reason: string): Result
    requires k in looked.byKey
  {
    if c.plans == [] then Refuse(s, KeyReused) else ReplayOf(looked, s, k, Request(DigestOf(Current(c)), reason))
  }

  function ReplayOf(c: Record, s: Record, k: OpKey, request: Request): Result
    requires k in c.byKey
  {
    if c.byKey[k] !in c.ops || c.ops[c.byKey[k]].request != request then Refuse(s, KeyReused)
    else Result(s, Accepted(c.byKey[k]))
  }

  function AcceptOperation(s: Record, ifMatch: nat, k: OpKey, id: string, request: Request, approval: string,
                           stage: Stage): Result {
    if k in s.byKey then ReplayOf(s, s, k, request)
    else if s.revision != ifMatch then Refuse(s, RevisionMismatch)
    else if OperationActive(s) then Refuse(s, InProgressAlready)
    else if id in s.ops then Refuse(s, Unavailable)
    else
      var o := Operation(k.kind, request.digest, approval, k.who, request, Queued, false, 1, None);
      Result(s.(ops := s.ops[id := o], byKey := s.byKey[k := id], stage := stage, revision := s.revision + 1),
             Accepted(id))
  }

  function Replan(c: Record, looked: Record, s: Record, ifMatch: nat, key: string, reason: string, id: string,
                  m: Material, expires: int): Result {
    if key in looked.replans then (if looked.replans[key] == reason then Result(s, Done) else Refuse(s, KeyReused))
    else if c.stage != Planned && c.stage != Blocked && c.stage != Failed then Refuse(s, StateConflict)
    else if OperationActive(c) then Refuse(s, InProgressAlready)
    else
      var version := if c.plans == [] then 1 else Current(c).version + 1;
      var r := SupersedePlan(s, ifMatch, key, reason, Plan(id, version, c.revision, m, expires));
      if r.reply.Done? || key !in s.replans then r
      else if s.replans[key] == reason then Result(s, Done) else Refuse(s, KeyReused)
  }

  /** Plan identifiers and versions are unique, and so is a replan's key. */
  function SupersedePlan(s: Record, ifMatch: nat, key: string, reason: string, p: Plan): Result {
    if s.revision != ifMatch then Refuse(s, RevisionMismatch)
    else if OperationActive(s) then Refuse(s, InProgressAlready)
    else if exists q :: q in s.plans && (q.id == p.id || q.version == p.version) then Refuse(s, Unavailable)
    else if key in s.replans then Refuse(s, Unavailable)
    else
      Result(s.(plans := s.plans + [p], replans := s.replans[key := reason], stage := InitialStage(p.material),
                revision := s.revision + 1), Done)
  }

  function Withdraw(c: Record, s: Record, ifMatch: nat): Result {
    if c.stage != Draft && c.stage != Planned && c.stage != Blocked && c.stage != Failed then Refuse(s, StateConflict)
    else if OperationActive(c) then Refuse(s, InProgressAlready)
    else if s.revision != ifMatch then Refuse(s, RevisionMismatch)
    else if OperationActive(s) then Refuse(s, InProgressAlready)
    else Result(s.(stage := Cancelled, status := CancelledStatus, revision := s.revision + 1), Done)
  }

  /** The operation is read first, at `o`, and the provisioning after it, at `c`; the store compares no revision. */
  function Retry(o: Record, c: Record, s: Record, id: string, key: string, a: Authority): Result {
    if id !in o.ops then Refuse(s, NotFound)
    else if o.ops[id].retryable && c.stage != Failed && c.stage != Blocked then Refuse(s, StateConflict)
    else if o.ops[id].retryable && (Stale(c, a) || DigestOf(Current(c)) != o.ops[id].digest) then Refuse(s, PlanStale)
    else RetryOperation(s, id, key)
  }

  function RetryOperation(s: Record, id: string, key: string): Result {
    if id !in s.ops then Refuse(s, NotFound)
    else if s.ops[id].retryKey == Some(key) then Result(s, Accepted(id))
    else if !s.ops[id].retryable
      || (s.ops[id].status != OpFailed && s.ops[id].status != OpBlocked) then Refuse(s, NotRetryable)
    else
      var next := s.ops[id].(status := Queued, attempt := s.ops[id].attempt + 1, retryable := false,
                             retryKey := Some(key));
      Result(s.(ops := s.ops[id := next], revision := s.revision + 1), Accepted(id))
  }

  /** A queued operation is cancelled at once and its provisioning blocked; a running one is asked to stop. */
  function CancelOperation(s: Record, id: string): Result {
    if id !in s.ops then Refuse(s, NotFound)
    else match s.ops[id].status
      case Queued => Result(EndCancelled(s, id), Accepted(id))
      case Running => Result(s.(ops := s.ops[id := s.ops[id].(status := CancelRequested)]), Accepted(id))
      case CancelRequested => Result(s, Accepted(id))
      case _ => Refuse(s, StateConflict)
  }

  function EndCancelled(s: Record, id: string): Record
    requires id in s.ops
  {
    s.(ops := s.ops[id := s.ops[id].(status := OpCancelled, retryable := false)], stage := Blocked,
       revision := s.revision + 1)
  }

  // ---------------------------------------------------------------------
  // The executor and the pipeline
  // ---------------------------------------------------------------------

  /** An operation asked to stop whose executor is gone. */
  function FinishAbandoned(s: Record, id: string): Record {
    if id in s.ops && s.ops[id].status == CancelRequested then EndCancelled(s, id) else s
  }

  /** A queued operation is claimed; a running one whose lease lapsed is claimed as another attempt. */
  function Claim(s: Record, id: string): Record {
    if id in s.ops && s.ops[id].status == Queued then
      s.(ops := s.ops[id := s.ops[id].(status := Running)])
    else if id in s.ops && s.ops[id].status == Running then
      s.(ops := s.ops[id := s.ops[id].(attempt := s.ops[id].attempt + 1)])
    else s
  }

  datatype Ending = Succeeds | Fails(retryable: bool) | StopsBlocked

  function CompletedStatus(was: OpStatus, e: Ending): OpStatus {
    match e
    case Succeeds => OpSucceeded
    case Fails(_) => if was == CancelRequested then OpCancelled else OpFailed
    case StopsBlocked => if was == CancelRequested then OpCancelled else OpBlocked
  }

  /** Recording CANCELLED leaves the executor with the provisioning still to block. */
  function Complete(s: Record, id: string, attempt: nat, e: Ending): Record {
    if id in s.ops && s.ops[id].attempt == attempt
      && (s.ops[id].status == Running || s.ops[id].status == CancelRequested) then
      var status := CompletedStatus(s.ops[id].status, e);
      var again := (e == Fails(true) || e.StopsBlocked?) && s.ops[id].status != CancelRequested;
      s.(ops := s.ops[id := s.ops[id].(status := status, retryable := again)],
         owed := if status == OpCancelled then s.owed + 1 else s.owed)
    else s
  }

  /** The pipeline stopped short of readiness; the executor will block the provisioning. */
  function StopShort(s: Record): Record {
    if s.status == ReconcileStatus || s.status == ReadyStatus then s.(owed := s.owed + 1) else s
  }

  function MarkBlocked(s: Record): Record {
    if s.owed == 0 then s else s.(owed := s.owed - 1, stage := Blocked, revision := s.revision + 1)
  }

  /** Changes only a provisioning still REMEDIATING. */
  function MarkExecutionFailed(s: Record, retryable: bool): Record {
    if s.stage == Remediating then s.(stage := if retryable then Failed else Blocked, revision := s.revision + 1) else s
  }

  predicate Transition(from: Status, to: Status) {
    match from
    case PlanStatus => to == ApplyStatus || to == CancelledStatus || to == FailedStatus
    case ApplyStatus => to == ReconcileStatus || to == CancelledStatus || to == FailedStatus
    case ReconcileStatus => to == ReadyStatus || to == ApplyStatus || to == CancelledStatus || to == FailedStatus
    case ReadyStatus => to == ActiveStatus || to == CancelledStatus || to == FailedStatus
    case ActiveStatus => false
    case FailedStatus => to == ApplyStatus || to == CancelledStatus
    case CancelledStatus => false
  }

  function Projection(t: Status): Stage {
    match t
    case PlanStatus => Planned
    case ApplyStatus => Registering
    case ReconcileStatus => VerifyingReadiness
    case ReadyStatus => Ready
    case ActiveStatus => Active
    case FailedStatus => Failed
    case CancelledStatus => Cancelled
  }

  /** The pipeline saves what it read, or moves its status on; a changed status carries its projection. */
  function Advance(c: Record, s: Record, to: Status): Record {
    if s.revision != c.revision then s
    else if to == c.status && to in {ApplyStatus, ReconcileStatus, ReadyStatus} then
      s.(status := to, stage := if s.status == to then s.stage else Projection(to), revision := s.revision + 1)
    else if Transition(c.status, to) then
      s.(status := to, stage := if s.status == to then s.stage else Projection(to), revision := s.revision + 1)
    else s
  }

  predicate BeforeProviders(t: Stage) {
    t == Registering || t == ConfiguringContext || t == ProvisioningEntitlements
  }

  /** The one change that leaves the revision alone. */
  function EnterProviders(s: Record): Record {
    if BeforeProviders(s.stage) then s.(stage := ProvisioningProviders) else s
  }

  // ---------------------------------------------------------------------
  // Runs
  // ---------------------------------------------------------------------

  datatype Step =
    | Approving(c: Record, ifMatch: nat, who: string, reviewed: Digest, verdict: Verdict, approval: string,
                a: Authority)
    | Applying(c: Record, looked: Record, ifMatch: nat, who: string, key: string, id: string, a: Authority)
    | Remedying(c: Record, looked: Record, ifMatch: nat, who: string, key: string, reason: string, id: string,
                a: Authority)
    | Replanning(c: Record, looked: Record, ifMatch: nat, key: string, reason: string, id: string, m: Material,
                 expires: int)
    | Withdrawing(c: Record, ifMatch: nat)
    | Retrying(o: Record, c: Record, id: string, key: string, a: Authority)
    | Cancelling(id: string)
    | Abandoning(id: string)
    | Claiming(id: string)
    | Completing(id: string, attempt: nat, e: Ending)
    | StoppingShort
    | Blocking
    | Failing(retryable: bool)
    | Advancing(c: Record, to: Status)
    | Entering

  function Do(s: Record, t: Step): Result {
    match t
    case Approving(c, m, who, d, v, ap, a) => Approve(c, s, m, who, d, v, ap, a)
    case Applying(c, l, m, who, k, id, a) => Apply(c, l, s, m, who, k, id, a)
    case Remedying(c, l, m, who, k, r, id, a) => Remediate(c, l, s, m, who, k, r, id, a)
    case Replanning(c, l, m, k, r, id, material, e) => Replan(c, l, s, m, k, r, id, material, e)
    case Withdrawing(c, m) => Withdraw(c, s, m)
    case Retrying(o, c, id, k, a) => Retry(o, c, s, id, k, a)
    case Cancelling(id) => CancelOperation(s, id)
    case Abandoning(id) => Result(FinishAbandoned(s, id), Done)
    case Claiming(id) => Result(Claim(s, id), Done)
    case Completing(id, n, e) => Result(Complete(s, id, n, e), Done)
    case StoppingShort => Result(StopShort(s), Done)
    case Blocking => Result(MarkBlocked(s), Done)
    case Failing(r) => Result(MarkExecutionFailed(s, r), Done)
    case Advancing(c, to) => Result(Advance(c, s, to), Done)
    case Entering => Result(EnterProviders(s), Done)
  }

  datatype Run = Start(creator: string, id: string, m: Material, expires: int) | Then(prior: Run, step: Step)

  function Last(run: Run): Record {
    match run
    case Start(who, id, m, e) => Created(who, id, m, e)
    case Then(prior, t) => Do(Last(prior), t).record
  }

  /** `c` is the record at some point of the run. */
  ghost predicate Seen(run: Run, c: Record) {
    c == Last(run) || (run.Then? && Seen(run.prior, c))
  }

  ghost predicate Reads(run: Run, t: Step) {
    match t
    case Retrying(o, c, _, _, _) => Seen(run, o) && Seen(run, c)
    case Approving(c, _, _, _, _, _, _) => Seen(run, c)
    case Applying(c, l, _, _, _, _, _) => Seen(run, c) && Seen(run, l)
    case Remedying(c, l, _, _, _, _, _, _) => Seen(run, c) && Seen(run, l)
    case Replanning(c, l, _, _, _, _, _, _) => Seen(run, c) && Seen(run, l)
    case Withdrawing(c, _) => Seen(run, c)
    case Advancing(c, _) => Seen(run, c)
    case _ => true
  }

  /** Every command reads the record as it was at some earlier point; nothing else is asked. */
  ghost predicate Legal(run: Run) {
    run.Then? ==> Legal(run.prior) && Reads(run.prior, run.step)
  }
}
