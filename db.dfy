/** The tenant-scoped data-access layer: every read adds the tenant to the filter, every
    insert stamps the tenant on the row, and the junction inserts first check that the
    rows they link belong to the tenant. The database is an in-memory sequence of rows;
    a row is the model it belongs to plus its field map. */
module Db {
  import opened Wrappers
  import opened Seqs

  /** A field value as the data layer sees it. */
  datatype Value = Str(s: string) | Num(n: int) | Bool(b: bool) | Null

  /** The tables the scoped client exposes. */
  datatype Model =
    | Tenant | User | CompanyProfile | Role | RoleAssignment | Process | Risk | Problem
    | Evidence | InternalAudit | ManagementReview | QualityObjective | TenantClauseScope
    | AuditProcess | AuditClause | ReviewAttendee | EvidenceClause | ProblemClause
    | AuditTrail | IsoClause

  type Record = map<string, Value>

  datatype Row = Row(model: Model, fields: Record)

  /** An equality filter: each listed field must be present with the listed value.
      A key that is absent plays the part of an `undefined` entry, which filters nothing. */
  type Where = map<string, Value>

  const TenantKey := "tenantId"
  const IdKey := "id"

  datatype DbError =
    | TenantRequired
    | RecordNotFound
    | ParentNotFound(parent: Model)

  /** The messages the wrapper throws; `RecordNotFound` is the database's own error. */
  function Message(e: DbError): string
  {
    match e
    case TenantRequired => "tenantId is required for all database operations"
    case RecordNotFound => "Record to update or delete does not exist"
    case ParentNotFound(InternalAudit) => "Audit not found or tenant mismatch"
    case ParentNotFound(Process) => "Process not found or tenant mismatch"
    case ParentNotFound(ManagementReview) => "Review not found or tenant mismatch"
    case ParentNotFound(User) => "User not found or tenant mismatch"
    case ParentNotFound(Evidence) => "Evidence not found or tenant mismatch"
    case ParentNotFound(Problem) => "Problem not found or tenant mismatch"
    case ParentNotFound(_) => "Record not found or tenant mismatch"
  }

  /** The nine entity tables with the full find/create/update/delete set. */
  predicate IsEntity(m: Model)
  {
    m.User? || m.Role? || m.Process? || m.Risk? || m.Problem? || m.Evidence?
    || m.InternalAudit? || m.ManagementReview? || m.QualityObjective?
  }

  /** The link tables whose inserts check their parents. */
  predicate IsJunction(m: Model)
  {
    m.AuditProcess? || m.AuditClause? || m.ReviewAttendee? || m.EvidenceClause? || m.ProblemClause?
  }

  /** Tables whose `findMany` is scoped. */
  predicate HasScopedFindMany(m: Model)
  {
    IsEntity(m) || m.RoleAssignment? || m.TenantClauseScope? || m.AuditTrail?
  }

  /** Tables whose plain `create` stamps the tenant. */
  predicate HasStampedCreate(m: Model)
  {
    IsEntity(m) || m.RoleAssignment? || m.CompanyProfile? || m.AuditTrail?
  }

  /** Tables whose `delete` is scoped. */
  predicate HasScopedDelete(m: Model)
  {
    IsEntity(m) || m.RoleAssignment? || IsJunction(m)
  }

  /** A record belongs to tenant `t`. */
  predicate Owned(f: Record, t: string)
  {
    TenantKey in f && f[TenantKey] == Str(t)
  }

  predicate Matches(f: Record, w: Where)
  {
    forall k :: k in w ==> k in f && f[k] == w[k]
  }

  /** `{ ...where, tenantId }`: the tenant entry is written last, so it replaces any caller value. */
  function Scoped(w: Where, t: string): Where
  {
    w[TenantKey := Str(t)]
  }

  /** `{ ...data, tenantId }` on an insert. */
  function Stamp(data: Record, t: string): (r: Record)
    ensures Owned(r, t)
    ensures r.Keys == data.Keys + {TenantKey}
    ensures forall k :: k in data && k != TenantKey ==> r[k] == data[k]
  {
    data[TenantKey := Str(t)]
  }

  /** An update writes the listed fields over the stored ones. */
  function Merge(f: Record, data: Record): Record
  {
    f + data
  }

  /** A scoped filter matches exactly the tenant's records that match the caller's filter
      with its own tenant entry ignored. */
  lemma ScopedMatches(f: Record, w: Where, t: string)
    ensures Matches(f, Scoped(w, t)) <==> Owned(f, t) && Matches(f, w - {TenantKey})
  {
    if Owned(f, t) && Matches(f, w - {TenantKey}) {
      forall k | k in Scoped(w, t) ensures k in f && f[k] == Scoped(w, t)[k] {
        if k != TenantKey {
          assert k in w - {TenantKey};
        }
      }
    }
    if Matches(f, Scoped(w, t)) {
      assert TenantKey in Scoped(w, t);
      forall k | k in w - {TenantKey} ensures k in f && f[k] == w[k] {
        assert k in Scoped(w, t);
      }
    }
  }

  /** `findMany`: the matching records of one table, in table order. */
  function Select(rows: seq<Row>, m: Model, w: Where): (r: seq<Record>)
    ensures |r| <= |rows|
    ensures forall f :: f in r <==> Row(m, f) in rows && Matches(f, w)
  {
    if rows == [] then []
    else
      var rest := Select(rows[1..], m, w);
      assert forall f :: Row(m, f) in rows <==> Row(m, f) == rows[0] || Row(m, f) in rows[1..];
      if rows[0].model == m && Matches(rows[0].fields, w) then [rows[0].fields] + rest else rest
  }

  /** `findFirst`: the position of the first matching row of the table. */
  function FindFirst(rows: seq<Row>, m: Model, w: Where): (r: Option<nat>)
    ensures r.Some? ==> r.value < |rows| && rows[r.value].model == m && Matches(rows[r.value].fields, w)
    ensures r.Some? ==> forall j :: 0 <= j < r.value ==> !(rows[j].model == m && Matches(rows[j].fields, w))
    ensures r.None? <==> forall j :: 0 <= j < |rows| ==> !(rows[j].model == m && Matches(rows[j].fields, w))
  {
    if rows == [] then None
    else if rows[0].model == m && Matches(rows[0].fields, w) then Some(0)
    else match FindFirst(rows[1..], m, w)
      case None => None
      case Some(i) => Some(i + 1)
  }

  /** The record at a position found by `FindFirst`. */
  function FieldsAt(rows: seq<Row>, r: Option<nat>): Option<Record>
    requires r.Some? ==> r.value < |rows|
  {
    match r
    case None => None
    case Some(i) => Some(rows[i].fields)
  }

  /** Only the `id` entry of a caller's filter survives in `findUnique`. */
  function IdOnly(w: Where): (r: Where)
    ensures r.Keys <= {IdKey}
    ensures IdKey in w ==> IdKey in r && r[IdKey] == w[IdKey]
  {
    if IdKey in w then map[IdKey := w[IdKey]] else map[]
  }

  /** The rows after an update of the first matching row; unchanged when none matches. */
  function ApplyUpdate(rows: seq<Row>, m: Model, w: Where, data: Record): (r: seq<Row>)
    ensures |r| == |rows|
  {
    match FindFirst(rows, m, w)
    case None => rows
    case Some(i) => rows[i := Row(m, Merge(rows[i].fields, data))]
  }

  /** The rows after deleting the first matching row; unchanged when none matches. */
  function ApplyDelete(rows: seq<Row>, m: Model, w: Where): (r: seq<Row>)
    ensures |r| == if FindFirst(rows, m, w).Some? then |rows| - 1 else |rows|
  {
    match FindFirst(rows, m, w)
    case None => rows
    case Some(i) => rows[..i] + rows[i + 1..]
  }

  /** A scoped update leaves every row of another tenant untouched, and changes at most one row,
      which belonged to the tenant. */
  lemma ScopedUpdateIsolated(rows: seq<Row>, m: Model, w: Where, t: string, data: Record)
    ensures forall j :: 0 <= j < |rows| && !Owned(rows[j].fields, t) ==>
      ApplyUpdate(rows, m, Scoped(w, t), data)[j] == rows[j]
    ensures forall j, k :: 0 <= j < k < |rows| && ApplyUpdate(rows, m, Scoped(w, t), data)[j] != rows[j] ==>
      ApplyUpdate(rows, m, Scoped(w, t), data)[k] == rows[k]
  {
    match FindFirst(rows, m, Scoped(w, t))
    case None =>
    case Some(i) =>
      ScopedMatches(rows[i].fields, w, t);
  }

  /** A row is kept by the tenant filter `p` exactly when it is not the tenant's. */
  predicate NotOwnedRow(t: string, row: Row)
  {
    !Owned(row.fields, t)
  }

  /** A scoped delete keeps every row of every other tenant, in order. */
  lemma ScopedDeleteIsolated(rows: seq<Row>, m: Model, w: Where, t: string)
    ensures Filter(ApplyDelete(rows, m, Scoped(w, t)), (row: Row) => NotOwnedRow(t, row))
         == Filter(rows, (row: Row) => NotOwnedRow(t, row))
  {
    match FindFirst(rows, m, Scoped(w, t))
    case None =>
    case Some(i) =>
      ScopedMatches(rows[i].fields, w, t);
      assert rows == rows[..i] + [rows[i]] + rows[i + 1..];
      FilterSkip(rows[..i], rows[i], rows[i + 1..], (row: Row) => NotOwnedRow(t, row));
  }

  /** Filtering out one rejected element is the same as never having had it. */
  lemma FilterSkip<T(!new)>(a: seq<T>, x: T, b: seq<T>, p: T -> bool)
    requires !p(x)
    ensures Filter(a + [x] + b, p) == Filter(a + b, p)
  {
    assert Filter([x], p) == [] by {
      assert [x][1..] == [];
    }
    FilterAppend(a, [x], p);
    assert Filter(a + [x], p) == Filter(a, p);
    FilterAppend(a + [x], b, p);
    FilterAppend(a, b, p);
  }

  /** Deletes keep every remaining row stamped. */
  lemma DeleteKeepsValid(rows: seq<Row>, m: Model, w: Where)
    requires RowsValid(rows)
    ensures RowsValid(ApplyDelete(rows, m, w))
  {
    match FindFirst(rows, m, w)
    case None =>
    case Some(i) =>
      var r := rows[..i] + rows[i + 1..];
      forall j | 0 <= j < |r| && TenantOwnedModel(r[j].model) ensures TenantKey in r[j].fields {
        if j < i {
          assert r[j] == rows[j];
        } else {
          assert r[j] == rows[j + 1];
        }
      }
  }

  /** Every row of a tenant-owned table carries a tenant field. */
  predicate TenantOwnedModel(m: Model)
  {
    !m.Tenant? && !m.IsoClause?
  }

  predicate RowsValid(rows: seq<Row>)
  {
    forall i :: 0 <= i < |rows| && TenantOwnedModel(rows[i].model) ==> TenantKey in rows[i].fields
  }

  /** Updates never drop a field, so they keep every row stamped. */
  lemma UpdateKeepsValid(rows: seq<Row>, m: Model, w: Where, data: Record)
    requires RowsValid(rows)
    ensures RowsValid(ApplyUpdate(rows, m, w, data))
  {
  }

  /** `db(tenantId)`: refuses an empty tenant id, otherwise yields a client bound to it. */
  function Connect(t: string): (r: Result<string, DbError>)
    ensures r.Failure? <==> t == ""
    ensures r.Failure? ==> r.error == TenantRequired
    ensures r.Success? ==> r.value == t
  {
    if t == "" then Failure(TenantRequired) else Success(t)
  }

  /** The parent checks a junction insert performs, in the order it performs them: the data
      field holding the parent id and the parent table. A review attendee's user is checked
      only when a truthy `userId` is given. */
  function ParentLinks(m: Model, data: Record): (r: seq<(string, Model)>)
    requires IsJunction(m)
    ensures 1 <= |r| <= 2
  {
    match m
    case AuditProcess => [("auditId", InternalAudit), ("processId", Process)]
    case AuditClause => [("auditId", InternalAudit)]
    case ReviewAttendee =>
      if "userId" in data && Truthy(data["userId"])
      then [("reviewId", ManagementReview), ("userId", User)]
      else [("reviewId", ManagementReview)]
    case EvidenceClause => [("evidenceId", Evidence)]
    case ProblemClause => [("problemId", Problem)]
  }

  /** JavaScript truthiness of a field value. */
  predicate Truthy(v: Value)
  {
    match v
    case Str(s) => s != ""
    case Num(n) => n != 0
    case Bool(b) => b
    case Null => false
  }

  /** `{ id: data[key], tenantId }`; a missing id is `undefined` and filters nothing. */
  function ParentFilter(data: Record, key: string, t: string): Where
  {
    Scoped(if key in data then map[IdKey := data[key]] else map[], t)
  }

  /** The parent named by `data[key]` exists in table `parent` and belongs to tenant `t`. */
  predicate ParentOwned(rows: seq<Row>, t: string, data: Record, key: string, parent: Model)
  {
    FindFirst(rows, parent, ParentFilter(data, key, t)).Some?
  }

  /** The first failing parent check, in the order the insert performs them. */
  function FirstFailing(rows: seq<Row>, t: string, data: Record, links: seq<(string, Model)>): (r: Option<DbError>)
    ensures r.None? <==> forall i :: 0 <= i < |links| ==> ParentOwned(rows, t, data, links[i].0, links[i].1)
    ensures r.Some? ==> exists i :: (0 <= i < |links| && r.value == ParentNotFound(links[i].1)
      && !ParentOwned(rows, t, data, links[i].0, links[i].1))
  {
    if links == [] then None
    else if !ParentOwned(rows, t, data, links[0].0, links[0].1) then Some(ParentNotFound(links[0].1))
    else
      var r := FirstFailing(rows, t, data, links[1..]);
      assert r.Some? ==> exists i :: (1 <= i < |links| && r.value == ParentNotFound(links[i].1)
        && !ParentOwned(rows, t, data, links[i].0, links[i].1)) by {
        if r.Some? {
          var i :| 0 <= i < |links[1..]| && r.value == ParentNotFound(links[1..][i].1)
            && !ParentOwned(rows, t, data, links[1..][i].0, links[1..][i].1);
          assert links[1..][i] == links[i + 1];
        }
      }
      r
  }

  /** A parent check that passes names a row of the parent table owned by the tenant, with the
      given id when one is given. */
  lemma ParentOwnedMeans(rows: seq<Row>, t: string, data: Record, key: string, parent: Model)
    ensures ParentOwned(rows, t, data, key, parent) <==>
      exists i :: (0 <= i < |rows| && rows[i].model == parent && Owned(rows[i].fields, t)
        && (key in data ==> IdKey in rows[i].fields && rows[i].fields[IdKey] == data[key]))
  {
    var w: Where := if key in data then map[IdKey := data[key]] else map[];
    var pf := ParentFilter(data, key, t);
    forall i | 0 <= i < |rows|
      ensures Matches(rows[i].fields, pf) <==> (Owned(rows[i].fields, t)
        && (key in data ==> IdKey in rows[i].fields && rows[i].fields[IdKey] == data[key]))
    {
      ScopedMatches(rows[i].fields, w, t);
      assert w - {TenantKey} == w;
      if key in data {
        assert IdKey in w;
      }
    }
    if ParentOwned(rows, t, data, key, parent) {
      var i := FindFirst(rows, parent, pf).value;
      assert rows[i].model == parent && Matches(rows[i].fields, pf);
    }
  }

  /** The store behind the scoped client, shared by all tenants. */
  class Store {
    var rows: seq<Row>

    /** Every row of a tenant-owned table carries a tenant id. This is an invariant that the
        constructor establishes and every write keeps; the reads do not need it. */
    ghost predicate Valid()
      reads this
    {
      RowsValid(rows)
    }

    constructor ()
      ensures rows == [] && Valid()
    {
      rows := [];
    }

    /** `findMany` on a tenant-owned table: only the tenant's rows, whatever tenant the caller's
        filter names. */
    function FindMany(m: Model, t: string, w: Where): (r: seq<Record>)
      reads this
      requires t != "" && HasScopedFindMany(m)
      ensures forall f :: f in r ==> Owned(f, t)
      ensures forall f :: f in r <==> Row(m, f) in rows && Owned(f, t) && Matches(f, w - {TenantKey})
    {
      var r := Select(rows, m, Scoped(w, t));
      assert forall f :: Matches(f, Scoped(w, t)) <==> Owned(f, t) && Matches(f, w - {TenantKey}) by {
        forall f {
          ScopedMatches(f, w, t);
        }
      }
      r
    }

    /** `findUnique` on an entity table, run as a `findFirst` on the caller's id and the tenant:
        another tenant's row is never found, and every other filter entry is dropped. */
    function FindUnique(m: Model, t: string, w: Where): (r: Option<Record>)
      reads this
      requires t != "" && IsEntity(m)
      ensures r.Some? ==> Row(m, r.value) in rows && Owned(r.value, t)
      ensures r.Some? && IdKey in w ==> IdKey in r.value && r.value[IdKey] == w[IdKey]
      ensures r.None? <==> forall j :: 0 <= j < |rows| ==>
        !(rows[j].model == m && Owned(rows[j].fields, t) && Matches(rows[j].fields, IdOnly(w)))
    {
      var found := FindFirst(rows, m, Scoped(IdOnly(w), t));
      assert forall j :: 0 <= j < |rows| ==> (Matches(rows[j].fields, Scoped(IdOnly(w), t))
        <==> Owned(rows[j].fields, t) && Matches(rows[j].fields, IdOnly(w))) by {
        forall j | 0 <= j < |rows| ensures Matches(rows[j].fields, Scoped(IdOnly(w), t))
          <==> Owned(rows[j].fields, t) && Matches(rows[j].fields, IdOnly(w)) {
          ScopedMatches(rows[j].fields, IdOnly(w), t);
          assert IdOnly(w) - {TenantKey} == IdOnly(w);
        }
      }
      FieldsAt(rows, found)
    }

    /** `companyProfile.findUnique`: the tenant's profile, whatever the caller asks. */
    function FindProfile(t: string): (r: Option<Record>)
      reads this
      requires t != ""
      ensures r.Some? ==> Row(CompanyProfile, r.value) in rows && Owned(r.value, t)
      ensures r.None? <==> forall j :: 0 <= j < |rows| ==> !(rows[j].model.CompanyProfile? && Owned(rows[j].fields, t))
    {
      var w: Where := map[];
      assert forall f :: Matches(f, Scoped(w, t)) <==> Owned(f, t) by {
        forall f {
          ScopedMatches(f, w, t);
        }
      }
      FieldsAt(rows, FindFirst(rows, CompanyProfile, Scoped(w, t)))
    }

    /** `tenantClauseScope.findUnique`: the caller's whole filter plus the tenant. */
    function FindScope(t: string, w: Where): (r: Option<Record>)
      reads this
      requires t != ""
      ensures r.Some? ==> Row(TenantClauseScope, r.value) in rows && Owned(r.value, t) && Matches(r.value, w - {TenantKey})
      ensures r.None? <==> forall j :: 0 <= j < |rows| ==>
        !(rows[j].model.TenantClauseScope? && Owned(rows[j].fields, t) && Matches(rows[j].fields, w - {TenantKey}))
    {
      var found := FindFirst(rows, TenantClauseScope, Scoped(w, t));
      assert forall j :: 0 <= j < |rows| ==> (Matches(rows[j].fields, Scoped(w, t))
        <==> Owned(rows[j].fields, t) && Matches(rows[j].fields, w - {TenantKey})) by {
        forall j | 0 <= j < |rows| ensures Matches(rows[j].fields, Scoped(w, t))
          <==> Owned(rows[j].fields, t) && Matches(rows[j].fields, w - {TenantKey}) {
          ScopedMatches(rows[j].fields, w, t);
        }
      }
      FieldsAt(rows, found)
    }

    /** The unfiltered reads: `tenant.findUnique` and `isoClause.findMany`/`findUnique` see every row. */
    function FindUnfiltered(m: Model, w: Where): (r: Option<Record>)
      reads this
      requires m.Tenant? || m.IsoClause?
      ensures r.Some? ==> Row(m, r.value) in rows && Matches(r.value, w)
      ensures r.None? <==> forall j :: 0 <= j < |rows| ==> !(rows[j].model == m && Matches(rows[j].fields, w))
    {
      FieldsAt(rows, FindFirst(rows, m, w))
    }

    function FindManyUnfiltered(w: Where): (r: seq<Record>)
      reads this
      ensures forall f :: f in r <==> Row(IsoClause, f) in rows && Matches(f, w)
    {
      Select(rows, IsoClause, w)
    }

    /** A stamped `create`: the new row belongs to the tenant even if the data names another. */
    method Create(m: Model, t: string, data: Record) returns (r: Record)
      requires t != "" && HasStampedCreate(m) && Valid()
      modifies this
      ensures r == Stamp(data, t) && Owned(r, t)
      ensures rows == old(rows) + [Row(m, r)]
      ensures Valid()
    {
      r := Stamp(data, t);
      rows := rows + [Row(m, r)];
    }

    /** A scoped `update`: the first row of the tenant matching the filter gets the data written
        over it; with no such row the database refuses and nothing changes. */
    method Update(m: Model, t: string, w: Where, data: Record) returns (r: Result<Record, DbError>)
      requires t != "" && IsEntity(m) && Valid()
      modifies this
      ensures rows == ApplyUpdate(old(rows), m, Scoped(w, t), data)
      ensures r.Failure? <==> FindFirst(old(rows), m, Scoped(w, t)).None?
      ensures r.Failure? ==> r.error == RecordNotFound
      ensures r.Success? ==> Row(m, r.value) in rows
      ensures r.Success? ==> r.value == Merge(old(rows)[FindFirst(old(rows), m, Scoped(w, t)).value].fields, data)
      ensures forall j :: 0 <= j < |rows| && !Owned(old(rows)[j].fields, t) ==> rows[j] == old(rows)[j]
      ensures Valid()
    {
      ScopedUpdateIsolated(rows, m, w, t, data);
      UpdateKeepsValid(rows, m, Scoped(w, t), data);
      var found := FindFirst(rows, m, Scoped(w, t));
      match found
      case None =>
        r := Failure(RecordNotFound);
      case Some(i) =>
        var f := Merge(rows[i].fields, data);
        rows := rows[i := Row(m, f)];
        r := Success(f);
    }

    /** `companyProfile.update`: the tenant filter is only a default, which a caller-supplied
        filter replaces entirely. */
    method UpdateProfile(t: string, w: Option<Where>, data: Record) returns (r: Result<Record, DbError>)
      requires t != "" && Valid()
      modifies this
      ensures rows == ApplyUpdate(old(rows), CompanyProfile, ProfileFilter(t, w), data)
      ensures r.Failure? <==> FindFirst(old(rows), CompanyProfile, ProfileFilter(t, w)).None?
      ensures r.Failure? ==> r.error == RecordNotFound
      ensures r.Success? ==> r.value == Merge(old(rows)[FindFirst(old(rows), CompanyProfile, ProfileFilter(t, w)).value].fields, data)
      ensures Valid()
    {
      UpdateKeepsValid(rows, CompanyProfile, ProfileFilter(t, w), data);
      var found := FindFirst(rows, CompanyProfile, ProfileFilter(t, w));
      match found
      case None =>
        r := Failure(RecordNotFound);
      case Some(i) =>
        var f := Merge(rows[i].fields, data);
        rows := rows[i := Row(CompanyProfile, f)];
        r := Success(f);
    }

    /** `tenant.update`: unfiltered. */
    method UpdateTenant(w: Where, data: Record) returns (r: Result<Record, DbError>)
      requires Valid()
      modifies this
      ensures rows == ApplyUpdate(old(rows), Tenant, w, data)
      ensures r.Failure? <==> FindFirst(old(rows), Tenant, w).None?
      ensures r.Failure? ==> r.error == RecordNotFound
      ensures r.Success? ==> r.value == Merge(old(rows)[FindFirst(old(rows), Tenant, w).value].fields, data)
      ensures Valid()
    {
      UpdateKeepsValid(rows, Tenant, w, data);
      var found := FindFirst(rows, Tenant, w);
      match found
      case None =>
        r := Failure(RecordNotFound);
      case Some(i) =>
        var f := Merge(rows[i].fields, data);
        rows := rows[i := Row(Tenant, f)];
        r := Success(f);
    }

    /** A scoped `delete`: removes the first row of the tenant matching the filter; with no such
        row the database refuses and nothing changes. */
    method Delete(m: Model, t: string, w: Where) returns (r: Result<Record, DbError>)
      requires t != "" && HasScopedDelete(m) && Valid()
      modifies this
      ensures rows == ApplyDelete(old(rows), m, Scoped(w, t))
      ensures r.Failure? <==> FindFirst(old(rows), m, Scoped(w, t)).None?
      ensures r.Failure? ==> r.error == RecordNotFound
      ensures r.Success? ==> r.value == old(rows)[FindFirst(old(rows), m, Scoped(w, t)).value].fields
      ensures r.Success? ==> Owned(r.value, t)
      ensures Valid()
    {
      var found := FindFirst(rows, m, Scoped(w, t));
      match found
      case None =>
        r := Failure(RecordNotFound);
      case Some(i) =>
        ScopedMatches(rows[i].fields, w, t);
        DeleteKeepsValid(rows, m, Scoped(w, t));
        r := Success(rows[i].fields);
        rows := rows[..i] + rows[i + 1..];
    }

    /** `tenantClauseScope.upsert`: updates the tenant's matching row, or inserts a stamped one. */
    method UpsertScope(t: string, w: Where, update: Record, create: Record) returns (r: Record)
      requires t != "" && Valid()
      modifies this
      ensures rows == ApplyUpsert(old(rows), t, w, update, create)
      ensures Row(TenantClauseScope, r) in rows
      ensures Valid()
    {
      var found := FindFirst(rows, TenantClauseScope, Scoped(w, t));
      match found
      case None =>
        r := Stamp(create, t);
        rows := rows + [Row(TenantClauseScope, r)];
      case Some(i) =>
        r := Merge(rows[i].fields, update);
        rows := rows[i := Row(TenantClauseScope, r)];
        assert rows[i] == Row(TenantClauseScope, r);
    }

    /** A junction insert: checks each parent in turn and throws on the first that is missing or
        another tenant's, writing nothing; otherwise inserts the stamped link row. */
    method CreateJunction(m: Model, t: string, data: Record) returns (r: Result<Record, DbError>)
      requires t != "" && IsJunction(m) && Valid()
      modifies this
      ensures r.Failure? <==> FirstFailing(old(rows), t, data, ParentLinks(m, data)).Some?
      ensures r.Failure? ==> (r.error == FirstFailing(old(rows), t, data, ParentLinks(m, data)).value
        && rows == old(rows))
      ensures r.Success? ==> r.value == Stamp(data, t) && rows == old(rows) + [Row(m, r.value)]
      ensures Valid()
    {
      var err := FirstFailing(rows, t, data, ParentLinks(m, data));
      if err.Some? {
        r := Failure(err.value);
      } else {
        r := Success(Stamp(data, t));
        rows := rows + [Row(m, r.value)];
      }
    }
  }

  /** The filter `companyProfile.update` runs with. */
  function ProfileFilter(t: string, w: Option<Where>): Where
  {
    match w
    case None => Scoped(map[], t)
    case Some(w) => w
  }

  /** The rows after a clause-scope upsert. */
  function ApplyUpsert(rows: seq<Row>, t: string, w: Where, update: Record, create: Record): (r: seq<Row>)
  {
    match FindFirst(rows, TenantClauseScope, Scoped(w, t))
    case None => rows + [Row(TenantClauseScope, Stamp(create, t))]
    case Some(i) => rows[i := Row(TenantClauseScope, Merge(rows[i].fields, update))]
  }

  /** After an upsert the tenant has a clause-scope row, and every other tenant's rows are where
      they were. */
  lemma UpsertIsolated(rows: seq<Row>, t: string, w: Where, update: Record, create: Record)
    ensures |rows| <= |ApplyUpsert(rows, t, w, update, create)| <= |rows| + 1
    ensures forall j :: 0 <= j < |rows| && !Owned(rows[j].fields, t) ==> ApplyUpsert(rows, t, w, update, create)[j] == rows[j]
    ensures exists j :: (0 <= j < |ApplyUpsert(rows, t, w, update, create)|
      && ApplyUpsert(rows, t, w, update, create)[j].model == TenantClauseScope
      && (j < |rows| ==> Owned(rows[j].fields, t))
      && (j == |rows| ==> Owned(ApplyUpsert(rows, t, w, update, create)[j].fields, t)))
  {
    match FindFirst(rows, TenantClauseScope, Scoped(w, t))
    case None =>
      assert ApplyUpsert(rows, t, w, update, create)[|rows|].model == TenantClauseScope;
    case Some(i) =>
      ScopedMatches(rows[i].fields, w, t);
      assert ApplyUpsert(rows, t, w, update, create)[i].model == TenantClauseScope;
  }

  /** A junction insert that goes through has every parent it names owned by the tenant; one
      that fails names a parent that is missing or another tenant's. */
  lemma JunctionChecksParents(rows: seq<Row>, m: Model, t: string, data: Record)
    requires IsJunction(m)
    ensures FirstFailing(rows, t, data, ParentLinks(m, data)).None? <==>
      forall i :: 0 <= i < |ParentLinks(m, data)| ==>
        exists j :: (0 <= j < |rows| && rows[j].model == ParentLinks(m, data)[i].1 && Owned(rows[j].fields, t)
          && (ParentLinks(m, data)[i].0 in data ==>
                IdKey in rows[j].fields && rows[j].fields[IdKey] == data[ParentLinks(m, data)[i].0]))
  {
    var links := ParentLinks(m, data);
    forall i | 0 <= i < |links| {
      ParentOwnedMeans(rows, t, data, links[i].0, links[i].1);
    }
  }

  /** An audit-process link is refused when the audit is another tenant's, even if the process
      is the tenant's own; the refusal names the audit. */
  lemma AuditCheckedBeforeProcess()
    ensures FirstFailing(
      [Row(InternalAudit, map[IdKey := Str("a"), TenantKey := Str("other")]),
       Row(Process, map[IdKey := Str("p"), TenantKey := Str("t")])],
      "t", map["auditId" := Str("a"), "processId" := Str("p")],
      ParentLinks(AuditProcess, map["auditId" := Str("a"), "processId" := Str("p")]))
      == Some(ParentNotFound(InternalAudit))
  {
    var rows := [Row(InternalAudit, map[IdKey := Str("a"), TenantKey := Str("other")]),
                 Row(Process, map[IdKey := Str("p"), TenantKey := Str("t")])];
    var data := map["auditId" := Str("a"), "processId" := Str("p")];
    var pf := ParentFilter(data, "auditId", "t");
    assert !Matches(rows[0].fields, pf) by {
      assert TenantKey in pf;
    }
    assert FindFirst(rows, InternalAudit, pf).None?;
  }

  /** The profile update's override in action: a caller filter on another tenant's profile id
      updates that profile. */
  lemma ProfileUpdateOverride()
    ensures ApplyUpdate([Row(CompanyProfile, map[IdKey := Str("p"), TenantKey := Str("other")])],
      CompanyProfile, ProfileFilter("t", Some(map[IdKey := Str("p")])), map["name" := Str("x")])[0].fields["name"] == Str("x")
  {
    var rows := [Row(CompanyProfile, map[IdKey := Str("p"), TenantKey := Str("other")])];
    var w := ProfileFilter("t", Some(map[IdKey := Str("p")]));
    assert Matches(rows[0].fields, w);
    assert FindFirst(rows, CompanyProfile, w) == Some(0);
  }

  /** Updates pass their data through unstamped, so an update can move one of the tenant's rows to
      another tenant. */
  lemma UpdateCanReassignTenant()
    ensures Owned(ApplyUpdate([Row(Risk, map[IdKey := Str("r"), TenantKey := Str("t")])],
      Risk, Scoped(map[IdKey := Str("r")], "t"), map[TenantKey := Str("other")])[0].fields, "other")
  {
    var rows := [Row(Risk, map[IdKey := Str("r"), TenantKey := Str("t")])];
    var w := Scoped(map[IdKey := Str("r")], "t");
    assert Matches(rows[0].fields, w);
    assert FindFirst(rows, Risk, w) == Some(0);
  }
}
