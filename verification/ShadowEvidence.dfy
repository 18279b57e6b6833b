/**
 The shadow evidence recorder: comparisons are aggregated per UTC day and label
 set in memory, swapped out by a flush, written in one transaction, and put back
 when the store refuses them. Adds and flushes interleave freely.

 Times are nanoseconds since the zero time. A `Run` is any interleaving of the
 recorder's critical sections; the ledger follows every accepted time to the
 place it ends up in.
 */
module ShadowEvidence {
  import opened Text

  const DAY := 86_400_000_000_000
  const CAPACITY := 20000
  const UNREGISTERED := "unregistered"

  datatype Key = Key(day: int, permission: string, legacy: string, grants: string, agreement: string)

  datatype Observation = Observation(
    day: int, permission: string, legacy: string, grants: string, agreement: string,
    decisions: nat, firstAt: int, lastAt: int)

  function KeyOf(o: Observation): Key {
    Key(o.day, o.permission, o.legacy, o.grants, o.agreement)
  }

  function DayOf(at: int): int {
    at - at % DAY
  }

  predicate Letter(c: char) { 'a' <= c <= 'z' }

  /** One dot-separated part of a permission key. */
  predicate Segment(s: string) {
    s != "" && Letter(s[0]) && forall i :: 0 <= i < |s| ==> Letter(s[i]) || '0' <= s[i] <= '9' || s[i] == '-'
  }

  predicate PermissionKey(s: string) {
    var parts := Split(s, '.');
    |parts| >= 2 && forall i :: 0 <= i < |parts| ==> Segment(parts[i])
  }

  /** The closed sets the evidence table accepts. */
  predicate Recordable(permission: string, legacy: string, grants: string, agreement: string) {
    && (PermissionKey(permission) || permission == UNREGISTERED)
    && legacy in {"allow", "deny"}
    && grants in {"allow", "deny", "step_up", "approval_required", "not_ready", "unmapped", "unresolved", "error"}
    && agreement in {"agree", "grants_broader", "grants_narrower", "not_evaluated"}
  }

  function One(k: Key, at: int): Observation {
    Observation(k.day, k.permission, k.legacy, k.grants, k.agreement, 1, at, at)
  }

  function Merged(cur: Observation, o: Observation): Observation {
    cur.(decisions := cur.decisions + o.decisions,
         firstAt := if o.firstAt < cur.firstAt then o.firstAt else cur.firstAt,
         lastAt := if o.lastAt > cur.lastAt then o.lastAt else cur.lastAt)
  }

  type Table = map<Key, Observation>

  function Upsert(t: Table, o: Observation): Table {
    var k := KeyOf(o);
    t[k := if k in t then Merged(t[k], o) else o]
  }

  /** Whether an observation of `k` finds a place in the bounded table. */
  predicate Keeps(t: Table, k: Key) {
    k in t || |t| < CAPACITY
  }

  function Admit(t: Table, o: Observation): Table {
    if Keeps(t, KeyOf(o)) then Upsert(t, o) else t
  }

  function Upserts(t: Table, batch: seq<Observation>): Table {
    if batch == [] then t else Upsert(Upserts(t, batch[..|batch| - 1]), batch[|batch| - 1])
  }

  function Admits(t: Table, batch: seq<Observation>): Table {
    if batch == [] then t else Admit(Admits(t, batch[..|batch| - 1]), batch[|batch| - 1])
  }

  predicate DistinctKeys(batch: seq<Observation>) {
    forall i, j :: 0 <= i < j < |batch| ==> KeyOf(batch[i]) != KeyOf(batch[j])
  }

  function KeysOf(batch: seq<Observation>): set<Key> {
    set o | o in batch :: KeyOf(o)
  }

  /** `batch` lists the table's observations, in whatever order the map was walked. */
  ghost predicate Enumerates(batch: seq<Observation>, t: Table) {
    && DistinctKeys(batch)
    && KeysOf(batch) == t.Keys
    && forall o :: o in batch ==> t[KeyOf(o)] == o
  }

  // ---------------------------------------------------------------------
  // The recorder itself
  // ---------------------------------------------------------------------

  class EvidenceStore {
    var rows: Table

    /** One transaction: every observation is added, or none is. */
    method Record(batch: seq<Observation>, up: bool) returns (ok: bool)
      modifies this
      ensures ok == up
      ensures rows == if up then Upserts(old(rows), batch) else old(rows)
    {
      ok := up;
      if up {
        var was := rows;
        for i := 0 to |batch|
          invariant rows == Upserts(was, batch[..i])
        {
          assert batch[..i + 1][..i] == batch[..i];
          rows := Upsert(rows, batch[i]);
        }
        assert batch[..|batch|] == batch;
      }
    }
  }

  class Recorder {
    var pending: Table
    var dropped: nat

    constructor ()
      ensures pending == map[] && dropped == 0
    {
      pending, dropped := map[], 0;
    }

    method Add(permission: string, legacy: string, grants: string, agreement: string, at: int)
      modifies this
      ensures var k := Key(DayOf(at), permission, legacy, grants, agreement);
              if Recordable(permission, legacy, grants, agreement)
              then && pending == Admit(old(pending), One(k, at))
                   && dropped == old(dropped) + (if Keeps(old(pending), k) then 0 else 1)
              else pending == old(pending) && dropped == old(dropped)
    {
      if !Recordable(permission, legacy, grants, agreement) {
        return;
      }
      var key := Key(DayOf(at), permission, legacy, grants, agreement);
      if key in pending {
        var o := pending[key];
        o := o.(decisions := o.decisions + 1);
        if at < o.firstAt {
          o := o.(firstAt := at);
        }
        if at > o.lastAt {
          o := o.(lastAt := at);
        }
        pending := pending[key := o];
        return;
      }
      if |pending| >= CAPACITY {
        dropped := dropped + 1;
        return;
      }
      pending := pending[key := One(key, at)];
    }

    /** The first critical section of a flush: copy what is pending and start afresh. */
    method Take() returns (batch: seq<Observation>)
      requires forall k :: k in pending ==> KeyOf(pending[k]) == k
      modifies this`pending
      ensures Enumerates(batch, old(pending))
      ensures pending == map[]
    {
      batch := [];
      var left := pending.Keys;
      while left != {}
        invariant left <= pending.Keys && pending == old(pending)
        invariant DistinctKeys(batch) && KeysOf(batch) == pending.Keys - left
        invariant forall o :: o in batch ==> KeyOf(o) in pending && pending[KeyOf(o)] == o
        decreases left
      {
        var k :| k in left;
        assert forall i :: 0 <= i < |batch| ==> batch[i] in batch && KeyOf(batch[i]) in KeysOf(batch);
        batch, left := batch + [pending[k]], left - {k};
        assert KeysOf(batch) == KeysOf(batch[..|batch| - 1]) + {k};
      }
      pending := map[];
    }

    /** The last critical section of a failed flush. */
    method PutBack(batch: seq<Observation>)
      modifies this`pending
      ensures pending == Admits(old(pending), batch)
    {
      for i := 0 to |batch|
        invariant pending == Admits(old(pending), batch[..i])
      {
        assert batch[..i + 1][..i] == batch[..i];
        var o := batch[i];
        var key := KeyOf(o);
        if key in pending {
          var cur := pending[key];
          cur := cur.(decisions := cur.decisions + o.decisions);
          if o.firstAt < cur.firstAt {
            cur := cur.(firstAt := o.firstAt);
          }
          if o.lastAt > cur.lastAt {
            cur := cur.(lastAt := o.lastAt);
          }
          pending := pending[key := cur];
        } else if |pending| < CAPACITY {
          pending := pending[key := o];
        }
      }
      assert batch[..|batch|] == batch;
    }

    /** A flush nothing interleaves with: it moves everything, or changes nothing. */
    method Flush(store: EvidenceStore, up: bool) returns (ok: bool)
      requires |pending| <= CAPACITY
      requires forall k :: k in pending ==> KeyOf(pending[k]) == k
      modifies this`pending, store
      ensures ok <==> up || old(pending) == map[]
      ensures !ok ==> pending == old(pending) && store.rows == old(store.rows)
      ensures ok ==> pending == map[]
      ensures ok ==> exists batch :: Enumerates(batch, old(pending)) && store.rows == Upserts(old(store.rows), batch)
    {
      var batch := Take();
      if batch == [] {
        assert Upserts(old(store.rows), batch) == store.rows;
        EmptyEnumeration(old(pending));
        return true;
      }
      ok := store.Record(batch, up);
      if !ok {
        PutBack(batch);
        PutBackRestores(old(pending), batch);
        assert KeyOf(batch[0]) in KeysOf(batch);
      }
    }
  }

  lemma {:induction false} EmptyEnumeration(t: Table)
    requires Enumerates([], t)
    ensures t == map[]
  {
    assert t.Keys == {};
  }

  /** A non-empty batch of distinct keys: its last key is new to the rest. */
  lemma {:induction false} LastKey(batch: seq<Observation>)
    requires batch != [] && DistinctKeys(batch)
    ensures var n := |batch| - 1;
            && DistinctKeys(batch[..n])
            && KeyOf(batch[n]) !in KeysOf(batch[..n])
            && KeysOf(batch) == KeysOf(batch[..n]) + {KeyOf(batch[n])}
  {
    var n := |batch| - 1;
    assert batch == batch[..n] + [batch[n]];
  }

  /** Putting back part of what was taken, on its own, rebuilds that part of the table. */
  lemma {:induction false} PutBackRestores(t: Table, batch: seq<Observation>)
    requires DistinctKeys(batch) && |t| <= CAPACITY
    requires forall o :: o in batch ==> KeyOf(o) in t && t[KeyOf(o)] == o
    ensures Admits(map[], batch).Keys == KeysOf(batch)
    ensures forall k :: k in KeysOf(batch) ==> k in t && Admits(map[], batch)[k] == t[k]
  {
    if batch != [] {
      var prior, o := batch[..|batch| - 1], batch[|batch| - 1];
      LastKey(batch);
      PutBackRestores(t, prior);
      assert o in batch;
      ProperSubset(KeysOf(prior), t.Keys, KeyOf(o));
    }
  }

  lemma {:induction false} ProperSubset<T>(a: set<T>, b: set<T>, x: T)
    requires a <= b && x in b && x !in a
    ensures |a| < |b|
  {
    Subset(a + {x}, b);
  }

  lemma {:induction false} Subset<T>(a: set<T>, b: set<T>)
    requires a <= b
    ensures |a| <= |b|
  {
    assert b == a + (b - a);
  }
}
