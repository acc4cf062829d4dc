/**
 * The organizations data-access object (app/database/dao/organizations.py)
 * over in-memory tables: the `organizations` table (unique ids and names), the
 * single `settings.default_organization` cell, and the membership table that
 * the membership step clears.
 *
 * Each mutation is specified by a function from the old tables to the result
 * and the new tables; `OrganizationsDao` holds the tables and performs the
 * mutations in place. SQL faults that the code catches are inputs (`readFails`,
 * `DeleteSteps`); a unique-key violation is computed from the tables.
 */
module Organizations {
  import opened Wrappers
  import opened Records
  import opened Strings
  import opened Sorting

  datatype OrgRow = OrgRow(id: Uuid, name: string, description: string, active: bool, created: Timestamp)

  datatype Membership = Membership(user: Uuid, organization: Uuid)

  datatype Tables = Tables(
    organizations: seq<OrgRow>,
    defaultOrganization: Option<Uuid>,
    memberships: set<Membership>)

  /** The table's keys: no two rows share an id or a name. */
  ghost predicate UniqueRows(rows: seq<OrgRow>) {
    forall i, j :: 0 <= i < j < |rows| ==> rows[i].id != rows[j].id && rows[i].name != rows[j].name
  }

  /** A row as the record the DAO returns, field by field. */
  function ToRecord(row: OrgRow): Organization {
    Organization(row.id, row.name, row.description, row.active, row.created)
  }

  predicate HasId(rows: seq<OrgRow>, id: Uuid) {
    exists i | 0 <= i < |rows| :: rows[i].id == id
  }

  predicate HasName(rows: seq<OrgRow>, name: string) {
    exists i | 0 <= i < |rows| :: rows[i].name == name
  }

  // ---------------------------------------------------------------------------
  // create_organization

  /** The insert violates a unique key: the new id or the name is already present. */
  predicate InsertConflict(rows: seq<OrgRow>, id: Uuid, name: string) {
    HasId(rows, id) || HasName(rows, name)
  }

  /**
   * `create_organization` with the fresh id and creation time given: a unique
   * violation returns `None` and changes nothing; otherwise exactly the new row
   * is added and the record echoes the inputs.
   */
  function Create(t: Tables, id: Uuid, name: string, description: string, active: bool, created: Timestamp)
    : (r: (Option<Organization>, Tables))
    ensures HasName(t.organizations, name) ==> r == (None, t)
    ensures r.0.None? <==> InsertConflict(t.organizations, id, name)
    ensures r.0.Some? ==> r.0.value == Organization(id, name, description, active, created)
    ensures r.0.Some? ==> r.1 == t.(organizations := t.organizations + [OrgRow(id, name, description, active, created)])
    ensures r.0.None? ==> r.1 == t
    ensures UniqueRows(t.organizations) ==> UniqueRows(r.1.organizations)
  {
    if InsertConflict(t.organizations, id, name) then (None, t)
    else
      var row := OrgRow(id, name, description, active, created);
      (Some(ToRecord(row)), t.(organizations := t.organizations + [row]))
  }

  // ---------------------------------------------------------------------------
  // get_organization_by_id (not shown in the source; a plain lookup by key)

  function OrganizationById(rows: seq<OrgRow>, id: Uuid): (r: Option<Organization>)
    ensures r.Some? <==> HasId(rows, id)
    ensures r.Some? ==> exists i :: 0 <= i < |rows| && rows[i].id == id && r.value == ToRecord(rows[i])
  {
    if rows == [] then None
    else if rows[0].id == id then Some(ToRecord(rows[0]))
    else
      var r := OrganizationById(rows[1..], id);
      assert forall i :: 0 <= i < |rows[1..]| ==> rows[1..][i] == rows[i + 1];
      r
  }

  // ---------------------------------------------------------------------------
  // get_default_organization

  /** The organization named by the settings cell; `None` when the cell is null or the read fails. */
  function GetDefaultOrganization(t: Tables, readFails: bool): (r: Option<Organization>)
    ensures readFails || t.defaultOrganization.None? ==> r.None?
    ensures r.Some? ==> Some(r.value.id) == t.defaultOrganization && HasId(t.organizations, r.value.id)
    ensures r.Some? ==> exists i :: 0 <= i < |t.organizations| && t.organizations[i].id == r.value.id
                                   && r.value == ToRecord(t.organizations[i])
    ensures !readFails && t.defaultOrganization.Some? && HasId(t.organizations, t.defaultOrganization.value) ==> r.Some?
  {
    if readFails then None
    else match t.defaultOrganization
      case None => None
      case Some(id) => OrganizationById(t.organizations, id)
  }

  // ---------------------------------------------------------------------------
  // get_organization_by_name

  /**
   * The object `get_organization_by_name` returns. Its `name` attribute is
   * assigned three times, with the name, the description and the creation
   * time, so it ends up holding the creation time; the other attributes are
   * never set.
   */
  datatype OrganizationByName = OrganizationByName(id: Uuid, name: Timestamp)

  /** The first row with the name, as `fetchrow` returns it. */
  function FirstNamed(rows: seq<OrgRow>, name: string): (r: Option<OrgRow>)
    ensures r.Some? <==> HasName(rows, name)
    ensures r.Some? ==> r.value in rows && r.value.name == name
  {
    if rows == [] then None
    else if rows[0].name == name then Some(rows[0])
    else
      assert forall i :: 0 <= i < |rows[1..]| ==> rows[1..][i] == rows[i + 1];
      FirstNamed(rows[1..], name)
  }

  function GetOrganizationByName(rows: seq<OrgRow>, name: string, readFails: bool): (r: Option<OrganizationByName>)
    ensures r.Some? <==> !readFails && HasName(rows, name)
    ensures r.Some? ==> exists i :: 0 <= i < |rows| && rows[i].name == name
                                      && r.value.id == rows[i].id && r.value.name == rows[i].created
  {
    if readFails then None
    else match FirstNamed(rows, name)
      case None => None
      case Some(row) => Some(OrganizationByName(row.id, row.created))
  }

  /** With unique names the lookup finds exactly the row of that name. */
  lemma GetOrganizationByNameUnique(rows: seq<OrgRow>, i: nat)
    requires UniqueRows(rows)
    requires i < |rows|
    ensures GetOrganizationByName(rows, rows[i].name, false) == Some(OrganizationByName(rows[i].id, rows[i].created))
  {
    var r := GetOrganizationByName(rows, rows[i].name, false);
    var j :| 0 <= j < |rows| && rows[j].name == rows[i].name && r.value.id == rows[j].id && r.value.name == rows[j].created;
    assert j == i;
  }

  // ---------------------------------------------------------------------------
  // get_organizations

  /** The normalised query: the `LIKE '%filter%'` needle (none for an empty search), `ORDER BY` column and direction. */
  datatype Query = Query(filter: Option<string>, orderColumn: string, orderDir: string)

  /**
   * The parameter normalisation of `get_organizations`. The column test
   * `order_column != "name" or order_column != "created"` holds for every
   * string, so the column is always `name`.
   */
  function GetOrganizationsQuery(search: string, orderColumn: string, orderDirAsc: bool): (q: Query)
    ensures q.orderDir == "ASC" <==> orderDirAsc
    ensures q.orderDir == "ASC" || q.orderDir == "DESC"
    ensures q.orderColumn == "name"
    ensures q.filter.None? <==> search == ""
    ensures q.filter.Some? ==> q.filter.value == search
  {
    var orderDir := if orderDirAsc then "ASC" else "DESC";
    var column := if orderColumn != "name" || orderColumn != "created" then "name" else orderColumn;
    Query(if search == "" then None else Some(search), column, orderDir)
  }

  /** The `WHERE` clause: name, description or created text contains the needle. */
  predicate Matches(row: OrgRow, filter: Option<string>) {
    match filter
    case None => true
    case Some(needle) =>
      Contains(row.name, needle) || Contains(row.description, needle) || Contains(row.created.text, needle)
  }

  function FilterRows(rows: seq<OrgRow>, filter: Option<string>): (r: seq<OrgRow>)
    ensures forall x :: x in r <==> x in rows && Matches(x, filter)
    ensures forall x :: multiset(r)[x] == if Matches(x, filter) then multiset(rows)[x] else 0
    ensures filter.None? ==> r == rows
  {
    if rows == [] then []
    else
      assert forall x :: x in rows <==> x == rows[0] || x in rows[1..];
      assert rows == [rows[0]] + rows[1..];
      (if Matches(rows[0], filter) then [rows[0]] else []) + FilterRows(rows[1..], filter)
  }

  function RowName(row: OrgRow): string {
    row.name
  }

  function RowCreatedText(row: OrgRow): string {
    row.created.text
  }

  /** The sort key of an `ORDER BY` column; anything but `created` orders by name. */
  function ColumnKey(column: string): OrgRow -> string {
    if column == "created" then RowCreatedText else RowName
  }

  lemma LexLessIsStrictTotalOrder()
    ensures StrictTotalOrder(LexLess)
  {
    forall a: string
      ensures !LexLess(a, a)
    {
      LexLessIrreflexive(a);
    }
    forall a: string, b: string, c: string | LexLess(a, b) && LexLess(b, c)
      ensures LexLess(a, c)
    {
      LexLessTransitive(a, b, c);
    }
    forall a: string, b: string | a != b
      ensures LexLess(a, b) || LexLess(b, a)
    {
      LexLessTotal(a, b);
    }
  }

  /**
   * The rows the query returns: the matching rows, and only those, ordered by
   * the column in code-point order, ascending for `ASC` and descending
   * otherwise.
   */
  function ExecuteQuery(rows: seq<OrgRow>, q: Query): (r: seq<OrgRow>)
    ensures multiset(r) == multiset(FilterRows(rows, q.filter))
    ensures forall x :: x in r <==> x in rows && Matches(x, q.filter)
    ensures forall x :: multiset(r)[x] == if Matches(x, q.filter) then multiset(rows)[x] else 0
    ensures q.orderDir == "ASC" ==>
      forall i, j :: 0 <= i < j < |r| ==> !LexLess(ColumnKey(q.orderColumn)(r[j]), ColumnKey(q.orderColumn)(r[i]))
    ensures q.orderDir != "ASC" ==>
      forall i, j :: 0 <= i < j < |r| ==> !LexLess(ColumnKey(q.orderColumn)(r[i]), ColumnKey(q.orderColumn)(r[j]))
  {
    var matching := FilterRows(rows, q.filter);
    var key := ColumnKey(q.orderColumn);
    var ascending := SortByKey(matching, key, LexLess);
    LexLessIsStrictTotalOrder();
    SortByKeySorted(matching, key, LexLess);
    ReverseMultiset(ascending);
    assert forall x :: x in ascending <==> x in multiset(matching);
    if q.orderDir == "ASC" then ascending else Reverse(ascending)
  }

  /** With an empty search every row comes back, whatever the order column, sorted by name. */
  lemma EmptySearchListsAllByName(rows: seq<OrgRow>, orderColumn: string, orderDirAsc: bool)
    ensures var r := ExecuteQuery(rows, GetOrganizationsQuery("", orderColumn, orderDirAsc));
      && multiset(r) == multiset(rows)
      && (orderDirAsc ==> forall i, j :: 0 <= i < j < |r| ==> !LexLess(r[j].name, r[i].name))
      && (!orderDirAsc ==> forall i, j :: 0 <= i < j < |r| ==> !LexLess(r[i].name, r[j].name))
  {
    var q := GetOrganizationsQuery("", orderColumn, orderDirAsc);
    assert ColumnKey(q.orderColumn) == RowName;
  }

  /** Rows to records, one per row and in row order (the loop of `get_organizations`). */
  method RowsToRecords(rows: seq<OrgRow>) returns (records: seq<Organization>)
    ensures |records| == |rows|
    ensures forall i :: 0 <= i < |rows| ==> records[i] == ToRecord(rows[i])
  {
    records := [];
    var i := 0;
    while i < |rows|
      invariant 0 <= i <= |rows|
      invariant |records| == i
      invariant forall k :: 0 <= k < i ==> records[k] == ToRecord(rows[k])
    {
      var row := rows[i];
      var organization := Organization(row.id, row.name, row.description, row.active, row.created);
      records := records + [organization];
      i := i + 1;
    }
  }

  // ---------------------------------------------------------------------------
  // update_organization

  /** The update violates the name key: the row exists and another row already has the name. */
  predicate UpdateConflict(rows: seq<OrgRow>, id: Uuid, name: string) {
    HasId(rows, id) && exists j | 0 <= j < |rows| :: rows[j].id != id && rows[j].name == name
  }

  /** `UPDATE organizations SET name, description, active WHERE id`. */
  function SetFields(rows: seq<OrgRow>, id: Uuid, name: string, description: string, active: bool): (r: seq<OrgRow>)
    ensures |r| == |rows|
    ensures forall i :: 0 <= i < |rows| ==> r[i].id == rows[i].id && r[i].created == rows[i].created
    ensures forall i :: 0 <= i < |rows| && rows[i].id == id ==>
      r[i].name == name && r[i].description == description && r[i].active == active
    ensures forall i :: 0 <= i < |rows| && rows[i].id != id ==> r[i] == rows[i]
    ensures UniqueRows(rows) && !UpdateConflict(rows, id, name) ==> UniqueRows(r)
  {
    seq(|rows|, i requires 0 <= i < |rows| =>
      if rows[i].id == id then rows[i].(name := name, description := description, active := active) else rows[i])
  }

  /**
   * `update_organization`: a name conflict returns `None` and changes nothing;
   * otherwise only the row `id` gets the new name, description and active flag,
   * and the result is that row read back (`None` if there is no such row).
   */
  function Update(t: Tables, id: Uuid, name: string, description: string, active: bool)
    : (r: (Option<Organization>, Tables))
    ensures UpdateConflict(t.organizations, id, name) ==> r == (None, t)
    ensures r.1.defaultOrganization == t.defaultOrganization && r.1.memberships == t.memberships
    ensures |r.1.organizations| == |t.organizations|
    ensures !UpdateConflict(t.organizations, id, name) ==> forall i :: 0 <= i < |t.organizations| ==>
      var old_ := t.organizations[i];
      r.1.organizations[i] == if old_.id == id then old_.(name := name, description := description, active := active) else old_
    ensures r.0.Some? <==> HasId(t.organizations, id) && !UpdateConflict(t.organizations, id, name)
    ensures r.0.Some? ==>
      exists i :: (0 <= i < |t.organizations| && t.organizations[i].id == id &&
                   r.0.value == Organization(id, name, description, active, t.organizations[i].created))
    ensures UniqueRows(t.organizations) ==> UniqueRows(r.1.organizations)
  {
    if UpdateConflict(t.organizations, id, name) then (None, t)
    else
      var rows := SetFields(t.organizations, id, name, description, active);
      var found := OrganizationById(rows, id);
      assert HasId(rows, id) <==> HasId(t.organizations, id);
      (found, t.(organizations := rows))
  }

  // ---------------------------------------------------------------------------
  // delete_organization

  /** Which of the three steps of `delete_organization` succeed when they run. */
  datatype DeleteSteps = DeleteSteps(membershipsRemoved: bool, settingsUpdated: bool, rowDeleted: bool)

  function WithoutId(rows: seq<OrgRow>, id: Uuid): (r: seq<OrgRow>)
    ensures forall x :: x in r <==> x in rows && x.id != id
    ensures |r| <= |rows|
  {
    if rows == [] then []
    else
      assert forall x :: x in rows <==> x == rows[0] || x in rows[1..];
      assert rows == [rows[0]] + rows[1..];
      (if rows[0].id != id then [rows[0]] else []) + WithoutId(rows[1..], id)
  }

  lemma {:induction false} WithoutIdUnique(rows: seq<OrgRow>, id: Uuid)
    ensures UniqueRows(rows) ==> UniqueRows(WithoutId(rows, id))
  {
    if rows != [] && UniqueRows(rows) {
      var tail := rows[1..];
      assert UniqueRows(tail) by {
        forall i, j | 0 <= i < j < |tail|
          ensures tail[i].id != tail[j].id && tail[i].name != tail[j].name
        {
          assert tail[i] == rows[i + 1] && tail[j] == rows[j + 1];
        }
      }
      WithoutIdUnique(tail, id);
      var rest := WithoutId(tail, id);
      if rows[0].id != id {
        var r := WithoutId(rows, id);
        assert r == [rows[0]] + rest;
        forall j | 0 <= j < |rest|
          ensures rest[j].id != rows[0].id && rest[j].name != rows[0].name
        {
          assert rest[j] in tail;
          var k :| 0 <= k < |tail| && tail[k] == rest[j];
          assert rows[k + 1] == rest[j];
        }
        forall i, j | 0 <= i < j < |r|
          ensures r[i].id != r[j].id && r[i].name != r[j].name
        {
          assert r[j] == rest[j - 1];
          if i > 0 {
            assert r[i] == rest[i - 1];
          }
        }
      }
    }
  }

  function MembershipsWithout(ms: set<Membership>, id: Uuid): set<Membership> {
    set m | m in ms && m.organization != id
  }

  /**
   * `delete_organization`: removes the memberships, clears the default setting
   * if it names `id`, and deletes the row, stopping with `false` at the first
   * step that fails. Nothing is rolled back.
   */
  function Delete(t: Tables, id: Uuid, steps: DeleteSteps): (r: (bool, Tables))
    ensures r.0 <==> steps.membershipsRemoved && steps.settingsUpdated && steps.rowDeleted
    ensures !steps.membershipsRemoved ==> r == (false, t)
    ensures r.1.memberships == if steps.membershipsRemoved then MembershipsWithout(t.memberships, id) else t.memberships
    ensures r.1.defaultOrganization ==
      if steps.membershipsRemoved && steps.settingsUpdated && t.defaultOrganization == Some(id) then None
      else t.defaultOrganization
    ensures r.1.organizations == if r.0 then WithoutId(t.organizations, id) else t.organizations
    ensures UniqueRows(t.organizations) ==> UniqueRows(r.1.organizations)
  {
    if !steps.membershipsRemoved then (false, t)
    else
      var t1 := t.(memberships := MembershipsWithout(t.memberships, id));
      if !steps.settingsUpdated then (false, t1)
      else
        var t2 := t1.(defaultOrganization := if t1.defaultOrganization == Some(id) then None else t1.defaultOrganization);
        if !steps.rowDeleted then (false, t2)
        else
          WithoutIdUnique(t.organizations, id);
          (true, t2.(organizations := WithoutId(t2.organizations, id)))
  }

  /** The default setting only ever changes from `id` to null. */
  lemma DeleteClearsOnlyOwnDefault(t: Tables, id: Uuid, steps: DeleteSteps)
    ensures var t' := Delete(t, id, steps).1;
      t'.defaultOrganization != t.defaultOrganization ==> t.defaultOrganization == Some(id) && t'.defaultOrganization.None?
  {
  }

  /** A complete delete leaves no trace of the organization in any table. */
  lemma DeleteCompleteLeavesNoReference(t: Tables, id: Uuid, steps: DeleteSteps)
    requires Delete(t, id, steps).0
    ensures var t' := Delete(t, id, steps).1;
      && !HasId(t'.organizations, id)
      && t'.defaultOrganization != Some(id)
      && forall m :: m in t'.memberships ==> m.organization != id
  {
    var rows := Delete(t, id, steps).1.organizations;
    forall i | 0 <= i < |rows|
      ensures rows[i].id != id
    {
      assert rows[i] in WithoutId(t.organizations, id);
    }
  }

  /**
   * A failure after the membership step leaves a partial delete: the
   * memberships are gone, the row is still there.
   */
  lemma DeletePartialState(t: Tables, id: Uuid, steps: DeleteSteps)
    requires steps.membershipsRemoved && !Delete(t, id, steps).0
    ensures var t' := Delete(t, id, steps).1;
      && t'.organizations == t.organizations
      && forall m :: m in t'.memberships ==> m.organization != id
  {
  }

  // ---------------------------------------------------------------------------
  // The tables, updated in place

  class OrganizationsDao {
    var organizations: seq<OrgRow>
    var defaultOrganization: Option<Uuid>
    var memberships: set<Membership>

    function State(): Tables
      reads this
    {
      Tables(organizations, defaultOrganization, memberships)
    }

    ghost predicate Valid()
      reads this
    {
      UniqueRows(organizations)
    }

    constructor (t: Tables)
      requires UniqueRows(t.organizations)
      ensures Valid() && State() == t
    {
      organizations, defaultOrganization, memberships := t.organizations, t.defaultOrganization, t.memberships;
    }

    /** `id` and `created` stand for `uuid4()` and `datetime.utcnow()`. */
    method CreateOrganization(name: string, description: string, active: bool, id: Uuid, created: Timestamp)
      returns (organization: Option<Organization>)
      requires Valid()
      modifies this
      ensures Valid()
      ensures (organization, State()) == Create(old(State()), id, name, description, active, created)
    {
      if InsertConflict(organizations, id, name) {
        return None;
      }
      organizations := organizations + [OrgRow(id, name, description, active, created)];
      organization := Some(Organization(id, name, description, active, created));
    }

    method UpdateOrganization(id: Uuid, name: string, description: string, active: bool)
      returns (organization: Option<Organization>)
      requires Valid()
      modifies this
      ensures Valid()
      ensures (organization, State()) == Update(old(State()), id, name, description, active)
    {
      if UpdateConflict(organizations, id, name) {
        return None;
      }
      organizations := SetFields(organizations, id, name, description, active);
      organization := OrganizationById(organizations, id);
    }

    method DeleteOrganization(id: Uuid, steps: DeleteSteps) returns (success: bool)
      requires Valid()
      modifies this
      ensures Valid()
      ensures (success, State()) == Delete(old(State()), id, steps)
    {
      if !steps.membershipsRemoved {
        return false;
      }
      memberships := MembershipsWithout(memberships, id);
      if !steps.settingsUpdated {
        return false;
      }
      if defaultOrganization == Some(id) {
        defaultOrganization := None;
      }
      if !steps.rowDeleted {
        return false;
      }
      WithoutIdUnique(organizations, id);
      organizations := WithoutId(organizations, id);
      return true;
    }

    /** `get_organizations`: the query's rows, mapped to records in order. */
    method GetOrganizations(search: string, orderColumn: string, orderDirAsc: bool)
      returns (records: seq<Organization>)
      ensures var rows := ExecuteQuery(organizations, GetOrganizationsQuery(search, orderColumn, orderDirAsc));
        |records| == |rows| && forall i :: 0 <= i < |rows| ==> records[i] == ToRecord(rows[i])
    {
      var query := GetOrganizationsQuery(search, orderColumn, orderDirAsc);
      var rows := ExecuteQuery(organizations, query);
      records := RowsToRecords(rows);
    }
  }
}
