/**
 Every interleaving of the recorder's critical sections. A `Run` is a finite
 history; `Exec` is the recorder and the evidence table after it, and `Audit` the
 ledger that follows each accepted time: pending, in flight, stored, dropped by a
 full recorder, or discarded by a put-back that found no room.
 */
module ShadowRuns {
  import opened ShadowEvidence

  datatype Step =
    | Add(permission: string, legacy: string, grants: string, agreement: string, at: int)
    | Swap(batch: seq<Observation>)  // a flush takes what is pending, listed in some order
    | Commit(flight: nat)            // the store accepted that flush's batch
    | PutBack(flight: nat)           // the store refused it

  datatype Run = Start | Then(prior: Run, step: Step)

  datatype World = World(pending: Table, dropped: nat, flights: seq<seq<Observation>>, rows: Table)

  type Bags = map<Key, multiset<int>>

  datatype Ledger = Ledger(
    pending: Bags, flights: seq<Bags>, rows: Bags, dropped: seq<(Key, int)>, discarded: Bags)

  predicate Accepted(s: Step) {
    s.Add? && Recordable(s.permission, s.legacy, s.grants, s.agreement)
  }

  function KeyFor(s: Step): Key
    requires s.Add?
  {
    Key(DayOf(s.at), s.permission, s.legacy, s.grants, s.agreement)
  }

  function Without<T>(s: seq<T>, i: nat): seq<T>
    requires i < |s|
  {
    s[..i] + s[i + 1..]
  }

  ghost predicate Enabled(w: World, s: Step) {
    match s
    case Add(_, _, _, _, _) => true
    case Swap(batch) => Enumerates(batch, w.pending)
    case Commit(i) => i < |w.flights|
    case PutBack(i) => i < |w.flights|
  }

  ghost function Next(w: World, s: Step): World
    requires Enabled(w, s)
  {
    match s
    case Add(_, _, _, _, at) =>
      if !Accepted(s) then w
      else w.(pending := Admit(w.pending, One(KeyFor(s), at)),
              dropped := w.dropped + if Keeps(w.pending, KeyFor(s)) then 0 else 1)
    case Swap(batch) =>
      w.(pending := map[], flights := if batch == [] then w.flights else w.flights + [batch])
    case Commit(i) => w.(flights := Without(w.flights, i), rows := Upserts(w.rows, w.flights[i]))
    case PutBack(i) => w.(flights := Without(w.flights, i), pending := Admits(w.pending, w.flights[i]))
  }

  ghost predicate Possible(r: Run)
    decreases r, 0
  {
    match r
    case Start => true
    case Then(prior, s) => Possible(prior) && Enabled(Exec(prior), s)
  }

  ghost function Exec(r: Run): World
    requires Possible(r)
    decreases r, 1
  {
    match r
    case Start => World(map[], 0, [], map[])
    case Then(prior, s) => Next(Exec(prior), s)
  }

  /** The times of the accepted comparisons of `k`, from the history alone. */
  ghost function Times(r: Run, k: Key): multiset<int> {
    match r
    case Start => multiset{}
    case Then(prior, s) => Times(prior, k) + if Accepted(s) && KeyFor(s) == k then multiset{s.at} else multiset{}
  }

  ghost function KeysSeen(r: Run): set<Key> {
    match r
    case Start => {}
    case Then(prior, s) => KeysSeen(prior) + if Accepted(s) then {KeyFor(s)} else {}
  }

  // ---------------------------------------------------------------------
  // The ledger
  // ---------------------------------------------------------------------

  ghost function Bag(b: Bags, k: Key): multiset<int> {
    if k in b then b[k] else multiset{}
  }

  ghost function Gain(b: Bags, k: Key, ts: multiset<int>): Bags {
    b[k := Bag(b, k) + ts]
  }

  ghost function Gains(b: Bags, batch: seq<Observation>, us: Bags): Bags {
    if batch == [] then b
    else
      var n, k := |batch| - 1, KeyOf(batch[|batch| - 1]);
      Gain(Gains(b, batch[..n], us), k, Bag(us, k))
  }

  /** What a put-back returns to `b` and what it adds to the discards `x`. */
  ghost function Returned(t: Table, b: Bags, x: Bags, batch: seq<Observation>, us: Bags): (Bags, Bags) {
    if batch == [] then (b, x)
    else
      var n, k := |batch| - 1, KeyOf(batch[|batch| - 1]);
      var (b', x') := Returned(t, b, x, batch[..n], us);
      if Keeps(Admits(t, batch[..n]), k) then (Gain(b', k, Bag(us, k)), x') else (b', Gain(x', k, Bag(us, k)))
  }

  ghost function Account(w: World, l: Ledger, s: Step): Ledger
    requires Enabled(w, s) && |l.flights| == |w.flights|
  {
    match s
    case Add(_, _, _, _, at) =>
      if !Accepted(s) then l
      else if Keeps(w.pending, KeyFor(s)) then l.(pending := Gain(l.pending, KeyFor(s), multiset{at}))
      else l.(dropped := l.dropped + [(KeyFor(s), at)])
    case Swap(batch) =>
      l.(pending := map[], flights := if batch == [] then l.flights else l.flights + [l.pending])
    case Commit(i) =>
      l.(flights := Without(l.flights, i), rows := Gains(l.rows, w.flights[i], l.flights[i]))
    case PutBack(i) =>
      var (b, x) := Returned(w.pending, l.pending, l.discarded, w.flights[i], l.flights[i]);
      l.(flights := Without(l.flights, i), pending := b, discarded := x)
  }

  ghost function Audit(r: Run): (l: Ledger)
    requires Possible(r)
    ensures |l.flights| == |Exec(r).flights|
  {
    match r
    case Start => Ledger(map[], [], map[], [], map[])
    case Then(prior, s) => Account(Exec(prior), Audit(prior), s)
  }

  /** How often `t` was accepted for `k` and is now in some flush's batch. */
  ghost function InFlight(fs: seq<Bags>, k: Key, t: int): nat {
    if fs == [] then 0 else Bag(fs[0], k)[t] + InFlight(fs[1..], k, t)
  }

  ghost function DroppedAt(d: seq<(Key, int)>, k: Key, t: int): nat {
    if d == [] then 0 else DroppedAt(d[..|d| - 1], k, t) + if d[|d| - 1] == (k, t) then 1 else 0
  }

  // ---------------------------------------------------------------------
  // What an observation says of the times behind it
  // ---------------------------------------------------------------------

  /** `o` counts exactly `ts`, and carries its earliest and latest time. */
  ghost predicate Sums(o: Observation, ts: multiset<int>) {
    && o.decisions == |ts|
    && o.firstAt in ts && o.lastAt in ts
    && forall t :: t in ts ==> o.firstAt <= t <= o.lastAt
  }

  ghost predicate Tallies(t: Table, b: Bags) {
    && t.Keys == b.Keys
    && forall k :: k in t ==> KeyOf(t[k]) == k && Sums(t[k], b[k])
  }

  ghost predicate BatchTallies(batch: seq<Observation>, us: Bags) {
    && DistinctKeys(batch)
    && KeysOf(batch) == us.Keys
    && forall o :: o in batch ==> KeyOf(o) in us && Sums(o, us[KeyOf(o)])
  }

  ghost predicate FlightsTally(fs: seq<seq<Observation>>, ls: seq<Bags>) {
    && |fs| == |ls|
    && forall i :: 0 <= i < |fs| ==> BatchTallies(fs[i], ls[i])
  }

  lemma {:induction false} LandedTally(fs: seq<seq<Observation>>, ls: seq<Bags>, i: nat)
    requires FlightsTally(fs, ls) && i < |fs|
    ensures FlightsTally(Without(fs, i), Without(ls, i))
  {
    forall j | 0 <= j < |fs| - 1
      ensures BatchTallies(Without(fs, i)[j], Without(ls, i)[j])
    {
      var j' := if j < i then j else j + 1;
      assert BatchTallies(fs[j'], ls[j']);
    }
  }

  lemma {:induction false} MergedSums(cur: Observation, o: Observation, ts: multiset<int>, us: multiset<int>)
    requires Sums(cur, ts) && Sums(o, us)
    ensures Sums(Merged(cur, o), ts + us)
  {
  }

  lemma {:induction false} UpsertTallies(t: Table, b: Bags, o: Observation, us: multiset<int>)
    requires Tallies(t, b) && Sums(o, us)
    ensures Tallies(Upsert(t, o), Gain(b, KeyOf(o), us))
  {
    var k := KeyOf(o);
    if k in t {
      MergedSums(t[k], o, b[k], us);
    }
  }

  lemma {:induction false} UpsertsTally(t: Table, b: Bags, batch: seq<Observation>, us: Bags)
    requires Tallies(t, b)
    requires forall o :: o in batch ==> KeyOf(o) in us && Sums(o, us[KeyOf(o)])
    ensures Tallies(Upserts(t, batch), Gains(b, batch, us))
  {
    if batch != [] {
      var n := |batch| - 1;
      UpsertsTally(t, b, batch[..n], us);
      assert batch[n] in batch;
      UpsertTallies(Upserts(t, batch[..n]), Gains(b, batch[..n], us), batch[n], us[KeyOf(batch[n])]);
    }
  }

  lemma {:induction false} AdmitsTally(t: Table, b: Bags, x: Bags, batch: seq<Observation>, us: Bags)
    requires Tallies(t, b)
    requires forall o :: o in batch ==> KeyOf(o) in us && Sums(o, us[KeyOf(o)])
    ensures Tallies(Admits(t, batch), Returned(t, b, x, batch, us).0)
  {
    if batch != [] {
      var n := |batch| - 1;
      AdmitsTally(t, b, x, batch[..n], us);
      assert batch[n] in batch;
      UpsertTallies(Admits(t, batch[..n]), Returned(t, b, x, batch[..n], us).0, batch[n], us[KeyOf(batch[n])]);
    }
  }

  /** A whole batch adds its own bags, once each. */
  lemma {:induction false} GainsOf(b: Bags, batch: seq<Observation>, us: Bags, k: Key, t: int)
    requires DistinctKeys(batch)
    ensures Bag(Gains(b, batch, us), k)[t] == Bag(b, k)[t] + if k in KeysOf(batch) then Bag(us, k)[t] else 0
  {
    if batch != [] {
      LastKey(batch);
      GainsOf(b, batch[..|batch| - 1], us, k, t);
    }
  }

  /** A put-back loses nothing of its batch: each bag is pending again or discarded. */
  lemma {:induction false} ReturnedOf(tb: Table, b: Bags, x: Bags, batch: seq<Observation>, us: Bags, k: Key, t: int)
    requires DistinctKeys(batch)
    ensures var (b', x') := Returned(tb, b, x, batch, us);
            Bag(b', k)[t] + Bag(x', k)[t] == Bag(b, k)[t] + Bag(x, k)[t] +
              if k in KeysOf(batch) then Bag(us, k)[t] else 0
  {
    if batch != [] {
      LastKey(batch);
      ReturnedOf(tb, b, x, batch[..|batch| - 1], us, k, t);
    }
  }

  lemma {:induction false} InFlightWithout(fs: seq<Bags>, i: nat, k: Key, t: int)
    requires i < |fs|
    ensures InFlight(fs, k, t) == Bag(fs[i], k)[t] + InFlight(Without(fs, i), k, t)
  {
    if i == 0 {
      assert Without(fs, 0) == fs[1..];
    } else {
      InFlightWithout(fs[1..], i - 1, k, t);
      assert Without(fs, i)[1..] == Without(fs[1..], i - 1);
    }
  }

  lemma {:induction false} InFlightSnoc(fs: seq<Bags>, b: Bags, k: Key, t: int)
    ensures InFlight(fs + [b], k, t) == InFlight(fs, k, t) + Bag(b, k)[t]
  {
    if fs != [] {
      InFlightSnoc(fs[1..], b, k, t);
      assert (fs + [b])[1..] == fs[1..] + [b];
    }
  }

  // ---------------------------------------------------------------------
  // Conservation
  // ---------------------------------------------------------------------

  /** How often the ledger holds `t` for `k`, wherever it is. */
  ghost function Holdings(l: Ledger, k: Key, t: int): nat {
    Bag(l.pending, k)[t] + InFlight(l.flights, k, t) + Bag(l.rows, k)[t] + DroppedAt(l.dropped, k, t) +
    Bag(l.discarded, k)[t]
  }

  /** The recorder's state is a summary of the ledger, within its bound. */
  ghost predicate Sound(w: World, l: Ledger) {
    && Tallies(w.pending, l.pending)
    && Tallies(w.rows, l.rows)
    && FlightsTally(w.flights, l.flights)
    && w.dropped == |l.dropped|
    && |w.pending| <= CAPACITY
  }

  lemma {:induction false} TakenTallies(batch: seq<Observation>, t: Table, b: Bags)
    requires Enumerates(batch, t) && Tallies(t, b)
    ensures BatchTallies(batch, b)
  {
    forall o | o in batch
      ensures KeyOf(o) in b && Sums(o, b[KeyOf(o)])
    {
      assert KeyOf(o) in KeysOf(batch);
    }
  }

  lemma {:induction false} AdmitsBounded(t: Table, batch: seq<Observation>)
    requires |t| <= CAPACITY
    ensures |Admits(t, batch)| <= CAPACITY
    ensures t.Keys <= Admits(t, batch).Keys <= t.Keys + KeysOf(batch)
  {
    if batch != [] {
      var n := |batch| - 1;
      AdmitsBounded(t, batch[..n]);
      assert KeysOf(batch[..n]) <= KeysOf(batch);
      assert batch[n] in batch;
    }
  }

  lemma {:induction false} AddSound(w: World, l: Ledger, s: Step)
    requires Sound(w, l) && Accepted(s)
    ensures Sound(Next(w, s), Account(w, l, s))
  {
    if Keeps(w.pending, KeyFor(s)) {
      UpsertTallies(w.pending, l.pending, One(KeyFor(s), s.at), multiset{s.at});
    }
  }

  lemma {:induction false} SwapSound(w: World, l: Ledger, s: Step)
    requires Sound(w, l) && s.Swap? && Enabled(w, s)
    ensures Sound(Next(w, s), Account(w, l, s))
  {
    TakenTallies(s.batch, w.pending, l.pending);
  }

  lemma {:induction false} CommitSound(w: World, l: Ledger, s: Step)
    requires Sound(w, l) && s.Commit? && Enabled(w, s)
    ensures Sound(Next(w, s), Account(w, l, s))
  {
    LandedTally(w.flights, l.flights, s.flight);
    UpsertsTally(w.rows, l.rows, w.flights[s.flight], l.flights[s.flight]);
  }

  lemma {:induction false} PutBackSound(w: World, l: Ledger, s: Step)
    requires Sound(w, l) && s.PutBack? && Enabled(w, s)
    ensures Sound(Next(w, s), Account(w, l, s))
  {
    LandedTally(w.flights, l.flights, s.flight);
    AdmitsTally(w.pending, l.pending, l.discarded, w.flights[s.flight], l.flights[s.flight]);
    AdmitsBounded(w.pending, w.flights[s.flight]);
  }

  lemma {:induction false} AlwaysSound(r: Run)
    requires Possible(r)
    ensures Sound(Exec(r), Audit(r))
  {
    if r.Then? {
      AlwaysSound(r.prior);
      var w, l, s := Exec(r.prior), Audit(r.prior), r.step;
      match s {
        case Add(_, _, _, _, _) => if Accepted(s) { AddSound(w, l, s); }
        case Swap(_) => SwapSound(w, l, s);
        case Commit(_) => CommitSound(w, l, s);
        case PutBack(_) => PutBackSound(w, l, s);
      }
    }
  }

  lemma {:induction false} AddHoldings(w: World, l: Ledger, s: Step, k: Key, t: int)
    requires Accepted(s) && |l.flights| == |w.flights|
    ensures Holdings(Account(w, l, s), k, t) == Holdings(l, k, t) + if KeyFor(s) == k && s.at == t then 1 else 0
  {
    if Keeps(w.pending, KeyFor(s)) {
      GainOne(l.pending, KeyFor(s), s.at, k, t);
    } else {
      DropOne(l.dropped, KeyFor(s), s.at, k, t);
    }
  }

  lemma {:induction false} GainOne(b: Bags, key: Key, at: int, k: Key, t: int)
    ensures Bag(Gain(b, key, multiset{at}), k)[t] == Bag(b, k)[t] + if key == k && at == t then 1 else 0
  {
  }

  lemma {:induction false} DropOne(d: seq<(Key, int)>, key: Key, at: int, k: Key, t: int)
    ensures DroppedAt(d + [(key, at)], k, t) == DroppedAt(d, k, t) + if key == k && at == t then 1 else 0
  {
    assert (d + [(key, at)])[..|d|] == d;
  }

  lemma {:induction false} SwapHoldings(w: World, l: Ledger, s: Step, k: Key, t: int)
    requires Sound(w, l) && s.Swap? && Enabled(w, s)
    ensures Holdings(Account(w, l, s), k, t) == Holdings(l, k, t)
  {
    InFlightSnoc(l.flights, l.pending, k, t);
    assert s.batch == [] ==> l.pending.Keys == {};
  }

  lemma {:induction false} CommitHoldings(w: World, l: Ledger, s: Step, k: Key, t: int)
    requires s.Commit? && Enabled(w, s) && |l.flights| == |w.flights|
    requires BatchTallies(w.flights[s.flight], l.flights[s.flight])
    ensures Holdings(Account(w, l, s), k, t) == Holdings(l, k, t)
  {
    InFlightWithout(l.flights, s.flight, k, t);
    GainsOf(l.rows, w.flights[s.flight], l.flights[s.flight], k, t);
  }

  lemma {:induction false} PutBackHoldings(w: World, l: Ledger, s: Step, k: Key, t: int)
    requires s.PutBack? && Enabled(w, s) && |l.flights| == |w.flights|
    requires BatchTallies(w.flights[s.flight], l.flights[s.flight])
    ensures Holdings(Account(w, l, s), k, t) == Holdings(l, k, t)
  {
    InFlightWithout(l.flights, s.flight, k, t);
    ReturnedOf(w.pending, l.pending, l.discarded, w.flights[s.flight], l.flights[s.flight], k, t);
  }

  ghost function Arrival(s: Step, k: Key, t: int): nat {
    if Accepted(s) && KeyFor(s) == k && s.at == t then 1 else 0
  }

  /** One step moves times about; only an accepted add brings one in. */
  lemma {:induction false} StepHoldings(w: World, l: Ledger, s: Step, k: Key, t: int)
    requires Sound(w, l) && Enabled(w, s)
    ensures Holdings(Account(w, l, s), k, t) == Holdings(l, k, t) + Arrival(s, k, t)
  {
    match s {
      case Add(_, _, _, _, _) => if Accepted(s) { AddHoldings(w, l, s, k, t); }
      case Swap(_) => SwapHoldings(w, l, s, k, t);
      case Commit(_) => CommitHoldings(w, l, s, k, t);
      case PutBack(_) => PutBackHoldings(w, l, s, k, t);
    }
  }

  /**
   The conservation law, time by time and in every interleaving: what was accepted is
   pending, in flight, stored, dropped or discarded, and nothing else is anywhere.
   */
  lemma {:induction false} Conservation(r: Run, k: Key, t: int)
    requires Possible(r)
    ensures Times(r, k)[t] == Holdings(Audit(r), k, t)
  {
    if r.Then? {
      Conservation(r.prior, k, t);
      AlwaysSound(r.prior);
      StepHoldings(Exec(r.prior), Audit(r.prior), r.step, k, t);
      assert Times(r, k)[t] == Times(r.prior, k)[t] + Arrival(r.step, k, t);
    }
  }

  // ---------------------------------------------------------------------
  // What the counts and windows say
  // ---------------------------------------------------------------------

  function Decisions(t: Table, k: Key): nat {
    if k in t then t[k].decisions else 0
  }

  function BatchDecisions(batch: seq<Observation>, k: Key): nat {
    if batch == [] then 0
    else BatchDecisions(batch[..|batch| - 1], k) +
         if KeyOf(batch[|batch| - 1]) == k then batch[|batch| - 1].decisions else 0
  }

  function FlightDecisions(fs: seq<seq<Observation>>, k: Key): nat {
    if fs == [] then 0 else BatchDecisions(fs[0], k) + FlightDecisions(fs[1..], k)
  }

  ghost function FlightTimes(fs: seq<Bags>, k: Key): multiset<int> {
    if fs == [] then multiset{} else Bag(fs[0], k) + FlightTimes(fs[1..], k)
  }

  ghost function DroppedTimes(d: seq<(Key, int)>, k: Key): multiset<int> {
    if d == [] then multiset{}
    else DroppedTimes(d[..|d| - 1], k) + if d[|d| - 1].0 == k then multiset{d[|d| - 1].1} else multiset{}
  }

  lemma {:induction false} BatchCount(batch: seq<Observation>, us: Bags, k: Key)
    requires DistinctKeys(batch)
    requires forall o :: o in batch ==> KeyOf(o) in us && Sums(o, us[KeyOf(o)])
    ensures BatchDecisions(batch, k) == if k in KeysOf(batch) then |Bag(us, k)| else 0
  {
    if batch != [] {
      LastKey(batch);
      assert batch[|batch| - 1] in batch;
      BatchCount(batch[..|batch| - 1], us, k);
    }
  }

  lemma {:induction false} FlightCount(fs: seq<seq<Observation>>, ls: seq<Bags>, k: Key)
    requires FlightsTally(fs, ls)
    ensures FlightDecisions(fs, k) == |FlightTimes(ls, k)|
  {
    if fs != [] {
      assert BatchTallies(fs[0], ls[0]);
      BatchCount(fs[0], ls[0], k);
      FlightCount(fs[1..], ls[1..], k);
    }
  }

  lemma {:induction false} FlightTimesAt(fs: seq<Bags>, k: Key, t: int)
    ensures FlightTimes(fs, k)[t] == InFlight(fs, k, t)
  {
    if fs != [] {
      FlightTimesAt(fs[1..], k, t);
    }
  }

  lemma {:induction false} DroppedTimesAt(d: seq<(Key, int)>, k: Key, t: int)
    ensures DroppedTimes(d, k)[t] == DroppedAt(d, k, t)
  {
    if d != [] {
      DroppedTimesAt(d[..|d| - 1], k, t);
    }
  }

  /** The conservation law on the recorder's own counters, for every key. */
  lemma {:induction false} DecisionsConserved(r: Run, k: Key)
    requires Possible(r)
    ensures var w, l := Exec(r), Audit(r);
            && |w.pending| <= CAPACITY
            && w.dropped == |l.dropped|
            && |Times(r, k)| == Decisions(w.pending, k) + FlightDecisions(w.flights, k) + Decisions(w.rows, k)
                                + |DroppedTimes(l.dropped, k)| + |Bag(l.discarded, k)|
  {
    AlwaysSound(r);
    var w, l := Exec(r), Audit(r);
    FlightCount(w.flights, l.flights, k);
    var all := Bag(l.pending, k) + FlightTimes(l.flights, k) + Bag(l.rows, k)
               + DroppedTimes(l.dropped, k) + Bag(l.discarded, k);
    forall t
      ensures Times(r, k)[t] == all[t]
    {
      Conservation(r, k, t);
      FlightTimesAt(l.flights, k, t);
      DroppedTimesAt(l.dropped, k, t);
    }
    assert Times(r, k) == all;
  }

  // ---------------------------------------------------------------------
  // Within capacity nothing is lost
  // ---------------------------------------------------------------------

  ghost predicate Familiar(l: Ledger, seen: set<Key>) {
    && l.pending.Keys <= seen
    && forall i :: 0 <= i < |l.flights| ==> l.flights[i].Keys <= seen
  }

  lemma {:induction false} ReturnedKeeps(t: Table, b: Bags, x: Bags, batch: seq<Observation>, us: Bags, seen: set<Key>)
    requires |t| <= CAPACITY && |seen| <= CAPACITY && t.Keys <= seen && KeysOf(batch) <= seen
    ensures Returned(t, b, x, batch, us).1 == x
    ensures Returned(t, b, x, batch, us).0.Keys <= b.Keys + seen
  {
    if batch != [] {
      var n := |batch| - 1;
      assert KeysOf(batch[..n]) <= KeysOf(batch) && batch[n] in batch;
      ReturnedKeeps(t, b, x, batch[..n], us, seen);
      AdmitsBounded(t, batch[..n]);
      RoomFor(Admits(t, batch[..n]), KeyOf(batch[n]), seen);
    }
  }

  lemma {:induction false} RoomFor(t: Table, k: Key, seen: set<Key>)
    requires t.Keys <= seen && k in seen && |seen| <= CAPACITY
    ensures Keeps(t, k)
  {
    if k !in t {
      ProperSubset(t.Keys, seen, k);
    }
  }

  ghost predicate Lossless(l: Ledger, seen: set<Key>) {
    l.dropped == [] && l.discarded == map[] && Familiar(l, seen)
  }

  lemma {:induction false} LosslessStep(w: World, l: Ledger, s: Step, seen: set<Key>)
    requires |l.flights| == |w.flights| && w.pending.Keys == l.pending.Keys && |w.pending| <= CAPACITY
    requires forall i :: 0 <= i < |w.flights| ==> KeysOf(w.flights[i]) == l.flights[i].Keys
    requires Enabled(w, s) && Lossless(l, seen) && |seen| <= CAPACITY
    requires Accepted(s) ==> KeyFor(s) in seen
    ensures Lossless(Account(w, l, s), seen)
  {
    if Accepted(s) {
      RoomFor(w.pending, KeyFor(s), seen);
    } else if s.PutBack? {
      ReturnedKeeps(w.pending, l.pending, l.discarded, w.flights[s.flight], l.flights[s.flight], seen);
    }
  }

  lemma {:induction false} NothingLost(r: Run, seen: set<Key>)
    requires Possible(r) && KeysSeen(r) <= seen && |seen| <= 20000
    ensures Lossless(Audit(r), seen)
  {
    if r.Then? {
      NothingLost(r.prior, seen);
      AlwaysSound(r.prior);
      var w, l := Exec(r.prior), Audit(r.prior);
      assert forall i :: 0 <= i < |w.flights| ==> BatchTallies(w.flights[i], l.flights[i]);
      LosslessStep(w, l, r.step, seen);
    }
  }

  /**
   A run that ever meets at most 20000 keys drops and discards nothing, however often
   the store refuses; once every flush has landed, each stored row is the exact count,
   minimum and maximum of the accepted times of its key.
   */
  lemma {:induction false} EvidenceComplete(r: Run, k: Key)
    requires Possible(r) && |KeysSeen(r)| <= 20000
    ensures Exec(r).dropped == 0 && Audit(r).discarded == map[]
    ensures var w := Exec(r);
            w.pending == map[] && w.flights == [] && Times(r, k) != multiset{} ==>
              k in w.rows && Sums(w.rows[k], Times(r, k))
  {
    NothingLost(r, KeysSeen(r));
    AlwaysSound(r);
    var w, l := Exec(r), Audit(r);
    if w.pending == map[] && w.flights == [] {
      forall t
        ensures Times(r, k)[t] == Bag(l.rows, k)[t]
      {
        Conservation(r, k, t);
      }
      assert Times(r, k) == Bag(l.rows, k);
    }
  }

  lemma {:induction false} TimesInDay(r: Run, k: Key)
    ensures forall t :: t in Times(r, k) ==> DayOf(t) == k.day
  {
    if r.Then? {
      TimesInDay(r.prior, k);
    }
  }

  /** Whatever was lost or moved, an observation's times lie in its key's UTC day and were accepted for it. */
  lemma {:induction false} WithinItsDay(r: Run, k: Key)
    requires Possible(r)
    ensures var w := Exec(r);
            && (k in w.pending ==> Window(w.pending[k], r, k))
            && (k in w.rows ==> Window(w.rows[k], r, k))
            && (forall i, o :: 0 <= i < |w.flights| && o in w.flights[i] && KeyOf(o) == k ==> Window(o, r, k))
  {
    AlwaysSound(r);
    TimesInDay(r, k);
    var w, l := Exec(r), Audit(r);
    if k in w.pending {
      Conservation(r, k, w.pending[k].firstAt);
      Conservation(r, k, w.pending[k].lastAt);
    }
    if k in w.rows {
      Conservation(r, k, w.rows[k].firstAt);
      Conservation(r, k, w.rows[k].lastAt);
    }
    forall i, o | 0 <= i < |w.flights| && o in w.flights[i] && KeyOf(o) == k
      ensures Window(o, r, k)
    {
      TakenWithinItsDay(r, i, o);
    }
  }

  lemma {:induction false} TakenWithinItsDay(r: Run, i: nat, o: Observation)
    requires Possible(r) && i < |Exec(r).flights| && o in Exec(r).flights[i]
    ensures Window(o, r, KeyOf(o))
  {
    AlwaysSound(r);
    TimesInDay(r, KeyOf(o));
    var l := Audit(r);
    assert BatchTallies(Exec(r).flights[i], l.flights[i]);
    Conservation(r, KeyOf(o), o.firstAt);
    Conservation(r, KeyOf(o), o.lastAt);
    InFlightWithout(l.flights, i, KeyOf(o), o.firstAt);
    InFlightWithout(l.flights, i, KeyOf(o), o.lastAt);
  }

  ghost predicate Window(o: Observation, r: Run, k: Key) {
    && k.day <= o.firstAt <= o.lastAt < k.day + 24 * 3600 * 1_000_000_000
    && o.firstAt in Times(r, k) && o.lastAt in Times(r, k)
  }

  // ---------------------------------------------------------------------
  // When a put-back discards
  // ---------------------------------------------------------------------

  /** A failed flush loses nothing exactly when the batch and what arrived since fit together. */
  lemma {:induction false} PutBackLossless(t: Table, batch: seq<Observation>)
    requires |t| <= CAPACITY
    ensures KeysOf(batch) <= Admits(t, batch).Keys <==> |t.Keys + KeysOf(batch)| <= 20000
  {
    AdmitsBounded(t, batch);
    if KeysOf(batch) <= Admits(t, batch).Keys {
      assert t.Keys + KeysOf(batch) == Admits(t, batch).Keys;
    }
    if |t.Keys + KeysOf(batch)| <= CAPACITY {
      AllAdmitted(t, batch, t.Keys + KeysOf(batch));
    }
  }

  lemma {:induction false} AllAdmitted(t: Table, batch: seq<Observation>, seen: set<Key>)
    requires |t| <= CAPACITY && |seen| <= CAPACITY && t.Keys + KeysOf(batch) <= seen
    ensures KeysOf(batch) <= Admits(t, batch).Keys
  {
    if batch != [] {
      var n := |batch| - 1;
      assert batch == batch[..n] + [batch[n]];
      assert KeysOf(batch) == KeysOf(batch[..n]) + {KeyOf(batch[n])};
      AllAdmitted(t, batch[..n], seen);
      AdmitsBounded(t, batch[..n]);
      RoomFor(Admits(t, batch[..n]), KeyOf(batch[n]), seen);
    }
  }

  function Filler(day: int): Observation {
    Observation(day * DAY, UNREGISTERED, "allow", "allow", "agree", 1, day * DAY, day * DAY)
  }

  function Filled(n: nat): (t: Table)
    ensures |t| == n
    ensures forall k :: k in t ==> k.day < n * DAY
  {
    if n == 0 then map[] else Upsert(Filled(n - 1), Filler(n - 1))
  }

  function AddOn(day: int): Step {
    Add(UNREGISTERED, "allow", "allow", "agree", day * DAY)
  }

  lemma {:induction false} OnItsDay(day: int)
    ensures Accepted(AddOn(day)) && One(KeyFor(AddOn(day)), day * DAY) == Filler(day)
            && KeyFor(AddOn(day)) == KeyOf(Filler(day))
  {
    assert day * DAY % DAY == 0;
  }

  /** `n` comparisons, each of its own day. */
  function Refill(base: Run, n: nat): Run {
    if n == 0 then base else Then(Refill(base, n - 1), AddOn(n - 1))
  }

  lemma {:induction false} AddStep(w: World, day: int)
    requires Keeps(w.pending, KeyOf(Filler(day)))
    ensures Enabled(w, AddOn(day)) && Next(w, AddOn(day)) == w.(pending := Upsert(w.pending, Filler(day)))
  {
    OnItsDay(day);
  }

  lemma {:induction false} FilledRoom(n: nat)
    requires 0 < n <= CAPACITY
    ensures Keeps(Filled(n - 1), KeyOf(Filler(n - 1))) && Upsert(Filled(n - 1), Filler(n - 1)) == Filled(n)
  {
  }

  lemma {:induction false} RefillStep(prior: Run, n: nat, w: World)
    requires Possible(prior) && n > 0 && Exec(prior) == w.(pending := Filled(n - 1))
    requires Keeps(Filled(n - 1), KeyOf(Filler(n - 1))) && Upsert(Filled(n - 1), Filler(n - 1)) == Filled(n)
    ensures Possible(Then(prior, AddOn(n - 1))) && Exec(Then(prior, AddOn(n - 1))) == w.(pending := Filled(n))
  {
    AddStep(Exec(prior), n - 1);
  }

  lemma {:induction false} Refilled(base: Run, n: nat)
    requires Possible(base) && Exec(base).pending == map[] && n <= CAPACITY
    ensures Possible(Refill(base, n)) && Exec(Refill(base, n)) == Exec(base).(pending := Filled(n))
  {
    if n > 0 {
      Refilled(base, n - 1);
      FilledRoom(n);
      RefillStep(Refill(base, n - 1), n, Exec(base));
    }
  }

  lemma {:induction false} RefilledTimes(base: Run, n: nat, k: Key)
    ensures |Times(base, k)| <= |Times(Refill(base, n), k)|
  {
    if n > 0 {
      RefilledTimes(base, n - 1, k);
    }
  }

  /** One comparison, taken by a flush. */
  function TakenRun(day: int): Run {
    Then(Then(Start, AddOn(day)), Swap([Filler(day)]))
  }

  lemma {:induction false} AloneEnumerated(o: Observation)
    ensures Enumerates([o], map[KeyOf(o) := o])
  {
    assert KeysOf([o]) == {KeyOf(o)} by {
      assert o in [o];
    }
  }

  lemma {:induction false} TakenExec(day: int)
    ensures Possible(TakenRun(day)) && Exec(TakenRun(day)) == World(map[], 0, [[Filler(day)]], map[])
    ensures |Times(TakenRun(day), KeyOf(Filler(day)))| == 1
  {
    OnItsDay(day);
    var w: World := World(map[], 0, [], map[]);
    AddStep(w, day);
    AloneEnumerated(Filler(day));
    assert Exec(Then(Start, AddOn(day))) == w.(pending := map[KeyOf(Filler(day)) := Filler(day)]);
    assert Times(Then(Start, AddOn(day)), KeyOf(Filler(day))) == multiset{day * DAY};
  }

  lemma {:induction false} NoRoom(n: nat, o: Observation)
    requires n == CAPACITY && KeyOf(o) !in Filled(n)
    ensures Admits(Filled(n), [o]) == Filled(n)
  {
    assert [o][..0] == [];
  }

  /**
   A comparison is taken by a flush, the recorder fills up meanwhile, the store refuses, and
   the comparison is gone: pending, in flight and stored nowhere, and `dropped` is zero.
   */
  lemma {:induction false} FullPutBackDiscards() returns (r: Run, k: Key)
    ensures Possible(r) && |Times(r, k)| > 0
    ensures var w := Exec(r); w.dropped == 0 && w.flights == [] && k !in w.pending && k !in w.rows
  {
    r, k := DiscardedAt(CAPACITY);
  }

  lemma {:induction false} DiscardedAt(n: nat) returns (r: Run, k: Key)
    requires n == CAPACITY
    ensures Possible(r) && |Times(r, k)| > 0
    ensures var w := Exec(r); w.dropped == 0 && w.flights == [] && k !in w.pending && k !in w.rows
  {
    var o, base := Filler(n), TakenRun(n);
    k := KeyOf(o);
    TakenExec(n);
    Refilled(base, n);
    RefilledTimes(base, n, k);
    var full := Refill(base, n);
    NoRoom(n, o);
    r := Then(full, PutBack(0));
    assert Exec(full).flights == [[o]];
  }
}
