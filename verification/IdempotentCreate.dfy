/**
 Creating an object under an idempotency key: look the key up, insert, and when the insert
 finds the key taken, read again. Changesets and markets scope the key to the principal,
 provider migrations use it alone. Requests interleave at every call to the store, and a
 call may fail before or after it took effect.
 */
module IdempotentCreate {
  import opened Common

  /** What the uniqueness constraint covers. */
  datatype Keying = PerPrincipal | KeyAlone

  datatype Scope = Scope(principal: string, key: string)

  datatype Request = Request(principal: string, key: string, hash: string)

  datatype Row = Row(id: string, scope: Scope, hash: string)

  function ScopeOf(keying: Keying, q: Request): Scope {
    Scope(if keying == PerPrincipal then q.principal else "", q.key)
  }

  // ---------------------------------------------------------------------
  // The store: identifiers and scopes are unique
  // ---------------------------------------------------------------------

  function Find(rows: seq<Row>, scope: Scope): (r: Option<Row>)
    ensures r.Some? ==> r.value in rows && r.value.scope == scope
    ensures r.None? ==> forall x :: x in rows ==> x.scope != scope
  {
    if rows == [] then None
    else if rows[0].scope == scope then Some(rows[0])
    else Find(rows[1..], scope)
  }

  datatype Inserted = Ok | KeyTaken | Error

  function Insert(rows: seq<Row>, row: Row): (seq<Row>, Inserted) {
    if Find(rows, row.scope).Some? then (rows, KeyTaken)
    else if exists x :: x in rows && x.id == row.id then (rows, Error)
    else (rows + [row], Ok)
  }

  // ---------------------------------------------------------------------
  // One request, one call to the store at a time
  // ---------------------------------------------------------------------

  datatype Reply = Created(id: string) | Conflict | Failed

  /** Where a request stands; `id` is the identifier it would create under. */
  datatype Phase =
    | Looking(q: Request, id: string)
    | Inserting(q: Request, id: string)
    | Rereading(q: Request)
    | Answered(q: Request, reply: Reply)

  /** A call to the store goes through, fails, or takes effect and is reported as failed. */
  datatype Fault = Fine | Before | After

  function Replay(row: Row, q: Request): Reply {
    if row.hash != q.hash then Conflict else Created(row.id)
  }

  /** The next call of a request, on the rows it meets. */
  function Advance(keying: Keying, rows: seq<Row>, p: Phase, fault: Fault): (seq<Row>, Phase) {
    match p
    case Looking(q, id) =>
      if fault != Fine then (rows, Answered(q, Failed))
      else (match Find(rows, ScopeOf(keying, q))
            case Some(row) => (rows, Answered(q, Replay(row, q)))
            case None => (rows, Inserting(q, id)))
    case Inserting(q, id) =>
      if fault == Before then (rows, Answered(q, Failed))
      else
        var (next, result) := Insert(rows, Row(id, ScopeOf(keying, q), q.hash));
        (next,
         if fault == After then Answered(q, Failed)
         else match result
           case Ok => Answered(q, Created(id))
           case KeyTaken => Rereading(q)
           case Error => Answered(q, Failed))
    case Rereading(q) =>
      if fault != Fine then (rows, Answered(q, Failed))
      else (match Find(rows, ScopeOf(keying, q))
            case Some(row) => (rows, Answered(q, Replay(row, q)))
            case None => (rows, Answered(q, Failed)))
    case Answered(_, _) => (rows, p)
  }

  // ---------------------------------------------------------------------
  // The repository and the handler, as they run
  // ---------------------------------------------------------------------

  class Repository {
    var rows: seq<Row>

    constructor ()
      ensures rows == []
    {
      rows := [];
    }

    method GetByKey(scope: Scope) returns (found: Option<Row>)
      ensures found == Find(rows, scope)
    {
      var i := 0;
      while i < |rows|
        invariant 0 <= i <= |rows|
        invariant Find(rows, scope) == Find(rows[i..], scope)
      {
        if rows[i].scope == scope {
          return Some(rows[i]);
        }
        assert rows[i..][1..] == rows[i + 1..];
        i := i + 1;
      }
      return None;
    }

    method Create(row: Row) returns (result: Inserted)
      modifies this
      ensures (rows, result) == Insert(old(rows), row)
    {
      var taken := GetByKey(row.scope);
      if taken.Some? {
        return KeyTaken;
      }
      if exists x :: x in rows && x.id == row.id {
        return Error;
      }
      rows := rows + [row];
      return Ok;
    }

    /** A handler between two of its calls to the store. */
    method Resume(keying: Keying, p: Phase, fault: Fault) returns (next: Phase)
      modifies this
      ensures (rows, next) == Advance(keying, old(rows), p, fault)
    {
      match p
      case Looking(q, id) =>
        if fault != Fine {
          return Answered(q, Failed);
        }
        var existing := GetByKey(ScopeOf(keying, q));
        if existing.Some? {
          return Answered(q, Replay(existing.value, q));
        }
        return Inserting(q, id);
      case Inserting(q, id) =>
        if fault == Before {
          return Answered(q, Failed);
        }
        var result := Create(Row(id, ScopeOf(keying, q), q.hash));
        if fault == After {
          return Answered(q, Failed);
        }
        match result {
          case Ok => return Answered(q, Created(id));
          case KeyTaken => return Rereading(q);
          case Error => return Answered(q, Failed);
        }
      case Rereading(q) =>
        if fault != Fine {
          return Answered(q, Failed);
        }
        var existing := GetByKey(ScopeOf(keying, q));
        if existing.Some? {
          return Answered(q, Replay(existing.value, q));
        }
        return Answered(q, Failed);
      case Answered(_, _) =>
        return p;
    }
  }

  // ---------------------------------------------------------------------
  // Runs of any number of interleaved requests
  // ---------------------------------------------------------------------

  datatype World = World(rows: seq<Row>, requests: map<nat, Phase>)

  datatype Step = Arrive(t: nat, q: Request, id: string) | Move(t: nat, fault: Fault)

  function Next(keying: Keying, w: World, s: Step): World {
    match s
    case Arrive(t, q, id) =>
      if t in w.requests then w else w.(requests := w.requests[t := Looking(q, id)])
    case Move(t, fault) =>
      if t !in w.requests then w else
        var (rows, p) := Advance(keying, w.rows, w.requests[t], fault);
        World(rows, w.requests[t := p])
  }

  datatype Run = Start | Then(prior: Run, step: Step)

  function Last(keying: Keying, run: Run): World {
    match run
    case Start => World([], map[])
    case Then(prior, s) => Next(keying, Last(keying, prior), s)
  }

  // ---------------------------------------------------------------------
  // At most one object per scope, and everyone is told of that one
  // ---------------------------------------------------------------------

  ghost predicate Unique(rows: seq<Row>) {
    forall i, j :: 0 <= i < j < |rows| ==> rows[i].scope != rows[j].scope && rows[i].id != rows[j].id
  }

  /** What a request knows of the rows. */
  ghost predicate Honest(keying: Keying, rows: seq<Row>, p: Phase) {
    match p
    case Looking(_, _) => true
    case Inserting(_, _) => true
    case Rereading(q) => exists row :: row in rows && row.scope == ScopeOf(keying, q)
    case Answered(q, Created(id)) => Row(id, ScopeOf(keying, q), q.hash) in rows
    case Answered(q, Conflict) => exists row :: row in rows && row.scope == ScopeOf(keying, q) && row.hash != q.hash
    case Answered(_, Failed) => true
  }

  ghost predicate Sound(keying: Keying, w: World) {
    Unique(w.rows) && forall t :: t in w.requests ==> Honest(keying, w.rows, w.requests[t])
  }

  lemma {:induction false} InsertKeepsUnique(rows: seq<Row>, row: Row)
    requires Unique(rows)
    ensures Unique(Insert(rows, row).0)
  {
    var next := Insert(rows, row).0;
    if next != rows {
      forall i, j | 0 <= i < j < |next|
        ensures next[i].scope != next[j].scope && next[i].id != next[j].id
      {
        assert next[i] in rows;
      }
    }
  }

  /** Rows are only ever added. */
  lemma {:induction false} AdvanceGrows(keying: Keying, rows: seq<Row>, p: Phase, fault: Fault)
    ensures rows <= Advance(keying, rows, p, fault).0
  {
  }

  lemma {:induction false} HonestStays(keying: Keying, rows: seq<Row>, more: seq<Row>, p: Phase)
    requires rows <= more && Honest(keying, rows, p)
    ensures Honest(keying, more, p)
  {
    assert forall x :: x in rows ==> x in more;
  }

  lemma {:induction false} AdvanceHonest(keying: Keying, rows: seq<Row>, p: Phase, fault: Fault)
    requires Honest(keying, rows, p)
    ensures Honest(keying, Advance(keying, rows, p, fault).0, Advance(keying, rows, p, fault).1)
  {
    if p.Inserting? && fault == Fine {
      var row := Row(p.id, ScopeOf(keying, p.q), p.q.hash);
      var (next, result) := Insert(rows, row);
      assert result == Ok ==> row in next;
      assert result == KeyTaken ==> Find(rows, row.scope).value in next;
    }
  }

  lemma {:induction false} NextSound(keying: Keying, w: World, s: Step)
    requires Sound(keying, w)
    ensures Sound(keying, Next(keying, w, s))
  {
    var n := Next(keying, w, s);
    if s.Move? && s.t in w.requests {
      var p := w.requests[s.t];
      AdvanceGrows(keying, w.rows, p, s.fault);
      AdvanceHonest(keying, w.rows, p, s.fault);
      if p.Inserting? {
        InsertKeepsUnique(w.rows, Row(p.id, ScopeOf(keying, p.q), p.q.hash));
      }
      forall t | t in n.requests
        ensures Honest(keying, n.rows, n.requests[t])
      {
        if t != s.t {
          HonestStays(keying, w.rows, n.rows, w.requests[t]);
        }
      }
    }
  }

  lemma {:induction false} AlwaysSound(keying: Keying, run: Run)
    ensures Sound(keying, Last(keying, run))
  {
    if run.Then? {
      AlwaysSound(keying, run.prior);
      NextSound(keying, Last(keying, run.prior), run.step);
    }
  }

  lemma {:induction false} SameRow(rows: seq<Row>, x: Row, y: Row)
    requires Unique(rows) && x in rows && y in rows && x.scope == y.scope
    ensures x == y
  {
    var i :| 0 <= i < |rows| && rows[i] == x;
    var j :| 0 <= j < |rows| && rows[j] == y;
  }

  // ---------------------------------------------------------------------
  // Where rows come from
  // ---------------------------------------------------------------------

  /** The request arrived in the run, with the identifier it would create under. */
  ghost predicate Arrived(keying: Keying, run: Run, q: Request, id: string) {
    && run.Then?
    && (Arrived(keying, run.prior, q, id)
        || (run.step.Arrive? && run.step.q == q && run.step.id == id
            && run.step.t !in Last(keying, run.prior).requests))
  }

  /** A request that has yet to insert carries its own identifier. */
  ghost predicate Genuine(keying: Keying, run: Run, p: Phase) {
    match p
    case Looking(q, id) => Arrived(keying, run, q, id)
    case Inserting(q, id) => Arrived(keying, run, q, id)
    case Rereading(q) => true
    case Answered(q, _) => true
  }

  ghost predicate RowFrom(keying: Keying, run: Run, row: Row) {
    exists q :: Arrived(keying, run, q, row.id) && row == Row(row.id, ScopeOf(keying, q), q.hash)
  }

  ghost predicate AllFrom(keying: Keying, run: Run) {
    && (forall t :: t in Last(keying, run).requests ==> Genuine(keying, run, Last(keying, run).requests[t]))
    && (forall row :: row in Last(keying, run).rows ==> RowFrom(keying, run, row))
  }

  lemma {:induction false} StillFrom(keying: Keying, run: Run, step: Step, row: Row)
    requires RowFrom(keying, run, row)
    ensures RowFrom(keying, Then(run, step), row)
  {
    var q :| Arrived(keying, run, q, row.id) && row == Row(row.id, ScopeOf(keying, q), q.hash);
    assert Arrived(keying, Then(run, step), q, row.id);
  }

  /** Every row was created for a request that arrived, under its identifier and for its hash. */
  lemma {:induction false} RowsComeFromRequests(keying: Keying, run: Run)
    ensures AllFrom(keying, run)
  {
    if run.Then? {
      RowsComeFromRequests(keying, run.prior);
      var w, n, s := Last(keying, run.prior), Last(keying, run), run.step;
      forall row | row in n.rows
        ensures RowFrom(keying, run, row)
      {
        if row in w.rows {
          StillFrom(keying, run.prior, s, row);
        } else {
          var p := w.requests[s.t];
          assert Genuine(keying, run.prior, p) && p.Inserting?;
          assert Arrived(keying, run, p.q, p.id) && row == Row(p.id, ScopeOf(keying, p.q), p.q.hash);
        }
      }
      forall t | t in n.requests
        ensures Genuine(keying, run, n.requests[t])
      {
        if t in w.requests {
          assert Genuine(keying, run.prior, w.requests[t]);
        }
      }
    }
  }

  // ---------------------------------------------------------------------
  // What two requests under one key are told
  // ---------------------------------------------------------------------

  /** The key is the same, and so is the principal where keys belong to principals. */
  predicate SharesKey(keying: Keying, p: Request, q: Request) {
    p.key == q.key && (keying == PerPrincipal ==> p.principal == q.principal)
  }

  lemma {:induction false} SharesScope(keying: Keying, p: Request, q: Request)
    ensures SharesKey(keying, p, q) <==> ScopeOf(keying, p) == ScopeOf(keying, q)
  {
  }

  /** The request has been answered. */
  predicate Told(w: World, t: nat, q: Request, reply: Reply) {
    t in w.requests && w.requests[t] == Answered(q, reply)
  }

  /**
   However requests interleave and wherever the store fails, two successes name one object
   exactly when their requests share the key, and then for one hash. Where keys belong to
   principals no one is ever answered with another's object.
   */
  lemma {:induction false} SameObjectExactlyWhen(keying: Keying, run: Run, t: nat, p: Request, i: string, u: nat,
                                                 q: Request, j: string)
    requires Told(Last(keying, run), t, p, Created(i)) && Told(Last(keying, run), u, q, Created(j))
    ensures i == j <==> SharesKey(keying, p, q)
    ensures i == j ==> p.hash == q.hash
  {
    var w := Last(keying, run);
    AlwaysSound(keying, run);
    SharesScope(keying, p, q);
    var x, y := Row(i, ScopeOf(keying, p), p.hash), Row(j, ScopeOf(keying, q), q.hash);
    assert Honest(keying, w.rows, w.requests[t]) && Honest(keying, w.rows, w.requests[u]);
    if i == j {
      SameId(w.rows, x, y);
    } else if SharesKey(keying, p, q) {
      SameRow(w.rows, x, y);
    }
  }

  lemma {:induction false} SameId(rows: seq<Row>, x: Row, y: Row)
    requires Unique(rows) && x in rows && y in rows && x.id == y.id
    ensures x == y
  {
    var i :| 0 <= i < |rows| && rows[i] == x;
    var j :| 0 <= j < |rows| && rows[j] == y;
  }

  /**
   A success names an identifier that a request sharing the key arrived with, for the same
   hash; a conflict means that one sharing it arrived with another hash.
   */
  lemma {:induction false} AnswersHaveCause(keying: Keying, run: Run, t: nat, q: Request, reply: Reply)
    requires Told(Last(keying, run), t, q, reply)
    ensures reply.Created? ==>
              exists p :: Arrived(keying, run, p, reply.id) && SharesKey(keying, p, q) && p.hash == q.hash
    ensures reply == Conflict ==>
              exists p, id :: Arrived(keying, run, p, id) && SharesKey(keying, p, q) && p.hash != q.hash
  {
    var w := Last(keying, run);
    AlwaysSound(keying, run);
    RowsComeFromRequests(keying, run);
    assert Honest(keying, w.rows, w.requests[t]);
    if reply.Created? {
      var row := Row(reply.id, ScopeOf(keying, q), q.hash);
      var p :| Arrived(keying, run, p, row.id) && row == Row(row.id, ScopeOf(keying, p), p.hash);
      SharesScope(keying, p, q);
    } else if reply == Conflict {
      var row :| row in w.rows && row.scope == ScopeOf(keying, q) && row.hash != q.hash;
      var p :| Arrived(keying, run, p, row.id) && row == Row(row.id, ScopeOf(keying, p), p.hash);
      SharesScope(keying, p, q);
    }
  }

  /**
   Beside a success, every other answer under the key is the same object if its hash is the
   same, a conflict if it is not, or a failure.
   */
  lemma {:induction false} AgreeOnOneObject(keying: Keying, run: Run, t: nat, p: Request, id: string, u: nat,
                                            q: Request, reply: Reply)
    requires Told(Last(keying, run), t, p, Created(id)) && Told(Last(keying, run), u, q, reply)
    requires SharesKey(keying, p, q) && reply != Failed
    ensures reply == if q.hash == p.hash then Created(id) else Conflict
  {
    var w := Last(keying, run);
    AlwaysSound(keying, run);
    SharesScope(keying, p, q);
    var mine := Row(id, ScopeOf(keying, p), p.hash);
    assert Honest(keying, w.rows, w.requests[t]) && Honest(keying, w.rows, w.requests[u]);
    if reply.Created? {
      SameRow(w.rows, mine, Row(reply.id, ScopeOf(keying, q), q.hash));
    } else {
      var row :| row in w.rows && row.scope == ScopeOf(keying, q) && row.hash != q.hash;
      SameRow(w.rows, mine, row);
    }
  }

  // ---------------------------------------------------------------------
  // Every request is answered, and the taken key is always found again
  // ---------------------------------------------------------------------

  /** Calls to the store a request has left at most. */
  function CallsLeft(p: Phase): nat {
    match p
    case Looking(_, _) => 3
    case Inserting(_, _) => 2
    case Rereading(_) => 1
    case Answered(_, _) => 0
  }

  /**
   Each of its calls brings a request nearer its answer and answers nothing but itself, and
   its third call answers it. A call that goes through fails only when the identifier is
   already used: a key found taken is found again.
   */
  lemma {:induction false} EachCallProgresses(keying: Keying, run: Run, t: nat, fault: Fault)
    requires t in Last(keying, run).requests && !Last(keying, run).requests[t].Answered?
    ensures var w, n := Last(keying, run), Last(keying, Then(run, Move(t, fault)));
            && t in n.requests && CallsLeft(n.requests[t]) < CallsLeft(w.requests[t])
            && n.requests[t].q == w.requests[t].q
            && (forall u :: u in w.requests && u != t ==> u in n.requests && n.requests[u] == w.requests[u])
            && (n.requests[t] == Answered(w.requests[t].q, Failed) && fault == Fine ==>
                  w.requests[t].Inserting? && exists x :: x in w.rows && x.id == w.requests[t].id)
  {
    AlwaysSound(keying, run);
    var w := Last(keying, run);
    assert Honest(keying, w.rows, w.requests[t]);
  }

  /**
   A call that fails is answered as a failure, whatever it did; one that failed before it took
   effect, and a failed lookup, did nothing. Otherwise an insert adds its row exactly when
   neither its key nor its identifier is taken.
   */
  lemma {:induction false} FailuresAreTold(keying: Keying, run: Run, t: nat, fault: Fault)
    requires t in Last(keying, run).requests && !Last(keying, run).requests[t].Answered?
    ensures var w, n := Last(keying, run), Last(keying, Then(run, Move(t, fault)));
            var p := w.requests[t];
            && (fault != Fine ==> Told(n, t, p.q, Failed))
            && (fault == Before || !p.Inserting? ==> n.rows == w.rows)
            && (fault != Before && p.Inserting? ==>
                  n.rows == if exists x :: x in w.rows && (x.id == p.id || x.scope == ScopeOf(keying, p.q)) then w.rows
                            else w.rows + [Row(p.id, ScopeOf(keying, p.q), p.q.hash)])
  {
  }

  /** The request is at its insert, whose outcome will be lost. */
  ghost predicate AboutToInsert(w: World, t: nat, p: Request, id: string) {
    t in w.requests && w.requests[t] == Inserting(p, id)
  }

  /**
   An insert that took effect and was reported as failed is not lost: the next request sharing
   the key is answered with its object for the same hash, and otherwise with a conflict.
   */
  lemma {:induction false} LostReplyRecovered(keying: Keying, run: Run, t: nat, p: Request, id: string, u: nat,
                                              q: Request, other: string)
    requires AboutToInsert(Last(keying, run), t, p, id) && u != t
    requires u in Last(keying, run).requests && Last(keying, run).requests[u] == Looking(q, other)
    requires SharesKey(keying, p, q)
    ensures var lost := Then(run, Move(t, After));
            && Told(Last(keying, lost), t, p, Failed)
            && (Last(keying, lost).rows != Last(keying, run).rows ==>
                  Told(Last(keying, Then(lost, Move(u, Fine))), u, q,
                       if q.hash == p.hash then Created(id) else Conflict))
  {
    var lost := Then(run, Move(t, After));
    var w, n := Last(keying, run), Last(keying, lost);
    SharesScope(keying, p, q);
    if n.rows != w.rows {
      var row := Row(id, ScopeOf(keying, p), p.hash);
      AlwaysSound(keying, lost);
      assert n.rows == w.rows + [row] && row in n.rows;
      SameRow(n.rows, row, Find(n.rows, row.scope).value);
    }
  }
}
