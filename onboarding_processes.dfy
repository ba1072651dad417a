/** The onboarding step that creates the default processes: it reads the names of the tenant's
    processes once, then inserts each default, in list order, whose name was not among them. */
module OnboardingProcesses {
  import opened Seqs
  import opened Db

  datatype DefaultProcess = DefaultProcess(name: string, description: string)

  const Defaults: seq<DefaultProcess> := [
    DefaultProcess("Sales", "Sales process and customer acquisition"),
    DefaultProcess("Service Delivery", "Delivery of services to customers"),
    DefaultProcess("Procurement", "Purchasing and supplier management"),
    DefaultProcess("HR", "Human resources and people management"),
    DefaultProcess("Management", "Management and strategic planning")
  ]

  const NameKey := "name"

  /** The tenant's process records, as the scoped `findMany` with no filter returns them. */
  function TenantProcesses(rows: seq<Row>, t: string): seq<Record>
  {
    Select(rows, Process, Scoped(map[], t))
  }

  /** The set of names of some records. */
  function NamesOf(recs: seq<Record>): set<Value>
  {
    set f | f in recs && NameKey in f :: f[NameKey]
  }

  function Absent(names: set<Value>): DefaultProcess -> bool
  {
    (d: DefaultProcess) => Str(d.name) !in names
  }

  /** The defaults to insert, in list order. */
  function ToCreate(defaults: seq<DefaultProcess>, names: set<Value>): seq<DefaultProcess>
  {
    Filter(defaults, Absent(names))
  }

  /** The insert data of a default. */
  function DataOf(d: DefaultProcess): Record
  {
    map[NameKey := Str(d.name), "description" := Str(d.description)]
  }

  function RowFor(t: string): DefaultProcess -> Row
  {
    (d: DefaultProcess) => Row(Process, Stamp(DataOf(d), t))
  }

  /** The table after the step. */
  function WithDefaults(rows: seq<Row>, t: string, defaults: seq<DefaultProcess>): seq<Row>
  {
    rows + MapSeq(ToCreate(defaults, NamesOf(TenantProcesses(rows, t))), RowFor(t))
  }

  /** The `POST` handler: creates the missing defaults for the tenant. */
  method CreateDefaultProcesses(store: Store, t: string)
    requires t != "" && store.Valid()
    modifies store
    ensures store.Valid()
    ensures store.rows == WithDefaults(old(store.rows), t, Defaults)
  {
    CreateMissing(store, t, Defaults);
  }

  /** The handler's loop: reads the tenant's process names once, then creates each default
      whose name is missing, in list order. */
  method CreateMissing(store: Store, t: string, defaults: seq<DefaultProcess>)
    requires t != "" && store.Valid()
    modifies store
    ensures store.Valid()
    ensures store.rows == WithDefaults(old(store.rows), t, defaults)
  {
    var existing := store.FindMany(Process, t, map[]);
    assert existing == TenantProcesses(store.rows, t);
    var names := NamesOf(existing);
    ghost var start := store.rows;
    for i := 0 to |defaults|
      invariant store.Valid()
      invariant store.rows == PushAllIf(start, defaults[..i], Absent(names), RowFor(t))
    {
      var d := defaults[i];
      PushAllIfStep(start, defaults, Absent(names), RowFor(t), i);
      if Str(d.name) !in names {
        var r := store.Create(Process, t, DataOf(d));
        assert Row(Process, r) == RowFor(t)(d);
      } else {
        assert store.rows + [] == store.rows;
      }
    }
    assert defaults[..|defaults|] == defaults;
    PushAllIfIsAppend(start, defaults, Absent(names), RowFor(t));
  }

  /** After the step, every default name belongs to one of the tenant's processes; the rows
      that were there are unchanged and in place; the defaults that were already present by
      name were not inserted again; and the inserted ones follow the list order. */
  lemma DefaultsPresentAfter(rows: seq<Row>, t: string, defaults: seq<DefaultProcess>)
    ensures rows <= WithDefaults(rows, t, defaults)
    ensures forall d :: d in defaults ==>
      Str(d.name) in NamesOf(TenantProcesses(WithDefaults(rows, t, defaults), t))
    ensures forall d :: d in ToCreate(defaults, NamesOf(TenantProcesses(rows, t))) ==>
      Str(d.name) !in NamesOf(TenantProcesses(rows, t))
    ensures IsSubsequence(ToCreate(defaults, NamesOf(TenantProcesses(rows, t))), defaults)
  {
    var before := NamesOf(TenantProcesses(rows, t));
    var after := WithDefaults(rows, t, defaults);
    var toCreate := ToCreate(defaults, before);
    var added := MapSeq(toCreate, RowFor(t));
    FilterIsSubsequence(defaults, Absent(before));
    forall d | d in defaults ensures Str(d.name) in NamesOf(TenantProcesses(after, t)) {
      NamePresentAfter(rows, t, defaults, d);
    }
  }

  lemma NamePresentAfter(rows: seq<Row>, t: string, defaults: seq<DefaultProcess>, d: DefaultProcess)
    requires d in defaults
    ensures Str(d.name) in NamesOf(TenantProcesses(WithDefaults(rows, t, defaults), t))
  {
    var before := NamesOf(TenantProcesses(rows, t));
    var after := WithDefaults(rows, t, defaults);
    var toCreate := ToCreate(defaults, before);
    var added := MapSeq(toCreate, RowFor(t));
    var f: Record;
    if Str(d.name) in before {
      var g :| g in TenantProcesses(rows, t) && NameKey in g && g[NameKey] == Str(d.name);
      assert Row(Process, g) in rows;
      assert Row(Process, g) in after;
      f := g;
    } else {
      assert d in toCreate;
      var k :| 0 <= k < |toCreate| && toCreate[k] == d;
      f := Stamp(DataOf(d), t);
      assert added[k] == Row(Process, f);
      assert after[|rows| + k] == Row(Process, f);
    }
    ScopedMatches(f, map[], t);
    assert f in TenantProcesses(after, t);
    assert NameKey in f && f[NameKey] == Str(d.name);
  }

  /** Running the step a second time inserts nothing. */
  lemma Idempotent(rows: seq<Row>, t: string, defaults: seq<DefaultProcess>)
    ensures WithDefaults(WithDefaults(rows, t, defaults), t, defaults) == WithDefaults(rows, t, defaults)
  {
    var after := WithDefaults(rows, t, defaults);
    var names := NamesOf(TenantProcesses(after, t));
    DefaultsPresentAfter(rows, t, defaults);
    forall i | 0 <= i < |defaults| ensures !Absent(names)(defaults[i]) {
      assert defaults[i] in defaults;
    }
    NoneKept(defaults, Absent(names));
    assert after + [] == after;
  }

  /** The number of inserted rows is the number of defaults minus the number already present:
      five minus that number for the handler's list. */
  lemma CreatedCount(defaults: seq<DefaultProcess>, names: set<Value>)
    ensures |ToCreate(defaults, names)|
         == |defaults| - |Filter(defaults, (d: DefaultProcess) => Str(d.name) in names)|
    ensures |Defaults| == 5
  {
    FilterComplement(defaults, Absent(names), (d: DefaultProcess) => Str(d.name) in names);
  }
}
