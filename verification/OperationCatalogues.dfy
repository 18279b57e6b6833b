/** The pinned catalogues: what a class of operation requires, and whether it can be authorised at all. */
module OperationCatalogues {
  import opened Common

  datatype Operation = Operation(operationClass: string, role: Option<string>, activity: string,
                                 capability: Option<string>, activatable: bool)

  predicate Named(o: Option<string>) {
    o.Some? && o.value != ""
  }

  /** An activatable class names its role and capability; any other names neither. */
  predicate PaymentsEntry(op: Operation) {
    && op.operationClass != "" && op.activity != ""
    && op.activatable == (Named(op.role) && Named(op.capability))
    && (op.activatable || (op.role.None? && op.capability.None?))
  }

  /** Activatable with both named, or not and with neither. */
  lemma {:induction false} PaymentsEntryExactly(op: Operation)
    ensures PaymentsEntry(op) <==>
            && op.operationClass != "" && op.activity != ""
            && match (op.role, op.capability)
               case (Some(role), Some(capability)) => op.activatable && role != "" && capability != ""
               case (None, None) => !op.activatable
               case _ => false
  {
  }

  predicate ErpEntry(op: Operation) {
    op.operationClass != "" && Named(op.role) && op.activity != ""
  }

  /** An ERP entry names its class, role and activity; a capability is as it may be. */
  lemma {:induction false} ErpEntryExactly(op: Operation)
    ensures ErpEntry(op) <==> op.role !in {None, Some("")} && "" !in {op.operationClass, op.activity}
  {
  }

  predicate TradeEntry(op: Operation) {
    op.operationClass != "" && op.activity != "" && op.role == Some("SELLER_OF_RECORD") && op.capability.None?
  }

  ghost predicate DistinctClasses(entries: seq<Operation>) {
    forall i, j :: 0 <= i < j < |entries| ==> entries[i].operationClass != entries[j].operationClass
  }

  ghost predicate DistinctActivities(entries: seq<Operation>) {
    forall i, j :: 0 <= i < j < |entries| ==> entries[i].activity != entries[j].activity
  }

  /** The map holds exactly the entries, by class. */
  ghost predicate Holds(entries: seq<Operation>, c: map<string, Operation>) {
    && (forall op :: op in entries ==> op.operationClass in c && c[op.operationClass] == op)
    && (forall k :: k in c ==> c[k] in entries && c[k].operationClass == k)
  }

  lemma {:induction false} HoldsOne(entries: seq<Operation>, c: map<string, Operation>, op: Operation)
    requires Holds(entries, c) && op.operationClass !in c
    ensures Holds(entries + [op], c[op.operationClass := op])
  {
  }

  lemma {:induction false} TakenClass(entries: seq<Operation>, c: map<string, Operation>, i: nat)
    requires i < |entries| && Holds(entries[..i], c) && entries[i].operationClass in c
    ensures !DistinctClasses(entries)
  {
    assert c[entries[i].operationClass] in entries[..i];
    var j :| 0 <= j < i && entries[..i][j] == c[entries[i].operationClass];
    assert entries[j].operationClass == entries[i].operationClass;
  }

  /** Payments and ERP: a catalogue loads exactly when it has entries, all valid, no class twice. */
  method Load(entries: seq<Operation>, valid: Operation -> bool) returns (r: Option<map<string, Operation>>)
    ensures r.Some? <==> entries != [] && (forall op :: op in entries ==> valid(op)) && DistinctClasses(entries)
    ensures r.Some? ==> Holds(entries, r.value) && forall k :: k in r.value ==> valid(r.value[k])
  {
    var out: map<string, Operation> := map[];
    for i := 0 to |entries|
      invariant Holds(entries[..i], out) && DistinctClasses(entries[..i])
      invariant forall op :: op in entries[..i] ==> valid(op)
    {
      var op := entries[i];
      assert op in entries;
      if op.operationClass in out {
        TakenClass(entries, out, i);
        return None;
      }
      if !valid(op) {
        return None;
      }
      NewClass(entries[..i], out, op);
      assert entries[..i + 1] == entries[..i] + [op];
      out := out[op.operationClass := op];
    }
    assert entries[..|entries|] == entries;
    if entries == [] {
      return None;
    }
    return Some(out);
  }

  function ActivitiesOf(entries: seq<Operation>): set<string> {
    set op | op in entries :: op.activity
  }

  lemma {:induction false} TakenActivity(entries: seq<Operation>, i: nat)
    requires i < |entries| && entries[i].activity in ActivitiesOf(entries[..i])
    ensures !DistinctActivities(entries)
  {
    var op :| op in entries[..i] && op.activity == entries[i].activity;
    var j :| 0 <= j < i && entries[..i][j] == op;
    assert entries[j].activity == entries[i].activity;
  }

  lemma {:induction false} NewActivity(entries: seq<Operation>, op: Operation)
    requires DistinctActivities(entries) && op.activity !in ActivitiesOf(entries)
    ensures DistinctActivities(entries + [op]) && ActivitiesOf(entries + [op]) == ActivitiesOf(entries) + {op.activity}
  {
    assert forall j :: 0 <= j < |entries| ==> entries[j] in entries;
    assert op in entries + [op];
  }

  lemma {:induction false} NewClass(entries: seq<Operation>, c: map<string, Operation>, op: Operation)
    requires Holds(entries, c) && DistinctClasses(entries) && op.operationClass !in c
    ensures Holds(entries + [op], c[op.operationClass := op]) && DistinctClasses(entries + [op])
  {
    HoldsOne(entries, c, op);
    assert forall j :: 0 <= j < |entries| ==> entries[j].operationClass in c;
  }

  /** Trade: moreover every class has its own activity. */
  method LoadTrade(entries: seq<Operation>) returns (r: Option<map<string, Operation>>)
    ensures r.Some? <==> && entries != [] && (forall op :: op in entries ==> TradeEntry(op))
                         && DistinctClasses(entries) && DistinctActivities(entries)
    ensures r.Some? ==> Holds(entries, r.value) && forall k :: k in r.value ==> TradeEntry(r.value[k])
  {
    var out: map<string, Operation> := map[];
    var activities: set<string> := {};
    for i := 0 to |entries|
      invariant Holds(entries[..i], out) && DistinctClasses(entries[..i])
      invariant forall op :: op in entries[..i] ==> TradeEntry(op)
      invariant activities == ActivitiesOf(entries[..i]) && DistinctActivities(entries[..i])
    {
      var op := entries[i];
      assert op in entries;
      if op.operationClass in out {
        TakenClass(entries, out, i);
        return None;
      }
      if op.activity in activities {
        TakenActivity(entries, i);
        return None;
      }
      if op.operationClass == "" || op.activity == "" || op.role != Some("SELLER_OF_RECORD") || op.capability.Some? {
        return None;
      }
      NewClass(entries[..i], out, op);
      NewActivity(entries[..i], op);
      assert entries[..i + 1] == entries[..i] + [op];
      activities := activities + {op.activity};
      out := out[op.operationClass := op];
    }
    assert entries[..|entries|] == entries;
    if entries == [] {
      return None;
    }
    return Some(out);
  }
}
