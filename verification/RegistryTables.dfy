/**
 The registry's versioned schema store (internal/registry/store.go:94-236) and the event rows
 that refer to it (internal/normalizer/store.go:59-79). One SQL statement or transaction is
 one atomic step on `Tables`.
 */
module RegistryTables {
  import opened Prelude
  import opened SchemaInference
  import opened Envelopes

  // Routing YAML, parsed; an empty or unparseable document is the zero value.
  datatype Routing = Routing(target: string, targets: seq<string>)

  datatype SchemaRow = SchemaRow(id: nat, category: nat, version: nat, document: Schema, routing: Routing, active: bool)

  datatype EventRow = EventRow(category: nat, schema: nat, envelope: Envelope)

  // `minted` is the next id that the database has not handed out.
  datatype Tables = Tables(categories: map<string, nat>, schemas: seq<SchemaRow>, events: seq<EventRow>, minted: nat)

  const EMPTY := Tables(map[], [], [], 0)

  // --- Queries ---

  // SELECT MAX(version) over the rows of a category, or over its active rows; 0 if there are none.
  function MaxVersion(rows: seq<SchemaRow>, category: nat, onlyActive: bool): nat {
    if rows == [] then 0 else
      var rest, row := MaxVersion(rows[..|rows| - 1], category, onlyActive), rows[|rows| - 1];
      if row.category == category && (!onlyActive || row.active) && row.version > rest then row.version else rest
  }

  // ... WHERE is_active ORDER BY version DESC LIMIT 1
  function BestActive(rows: seq<SchemaRow>, category: nat): Option<SchemaRow> {
    if rows == [] then None else
      var rest, row := BestActive(rows[..|rows| - 1], category), rows[|rows| - 1];
      if row.category == category && row.active && (rest.None? || row.version > rest.value.version) then Some(row)
        else rest
  }

  // GetActiveSchema
  function ActiveSchema(t: Tables, name: string): Option<SchemaRow> {
    if name in t.categories then BestActive(t.schemas, t.categories[name]) else None
  }

  // The version that ListCategories shows for a category.
  function ListedVersion(t: Tables, name: string): nat
    requires name in t.categories
  {
    MaxVersion(t.schemas, t.categories[name], true)
  }

  // The category and schema ids InsertEvent resolves before it inserts.
  function ResolveForInsert(t: Tables, name: string): Option<(nat, nat)> {
    var active := ActiveSchema(t, name);
    if active.Some? then Some((t.categories[name], active.value.id)) else None
  }

  // --- Updates ---

  function Deactivate(rows: seq<SchemaRow>, category: nat): (r: seq<SchemaRow>)
    ensures |r| == |rows|
    ensures forall i | 0 <= i < |rows| ::
      r[i] == if rows[i].category == category then rows[i].(active := false) else rows[i]
  {
    seq(|rows|, i requires 0 <= i < |rows| =>
      if rows[i].category == category then rows[i].(active := false) else rows[i])
  }

  // INSERT ... ON CONFLICT (name) DO UPDATE ... RETURNING id
  function UpsertCategory(t: Tables, name: string): Tables {
    if name in t.categories then t else t.(categories := t.categories[name := t.minted], minted := t.minted + 1)
  }

  // CreateSchemaVersion: the tables and the new row.
  function CreateVersion(t: Tables, name: string, document: Schema, routing: Routing): (Tables, SchemaRow) {
    var t1 := UpsertCategory(t, name);
    var category := t1.categories[name];
    var row := SchemaRow(t1.minted, category, MaxVersion(t1.schemas, category, false) + 1, document, routing, true);
    (t1.(schemas := Deactivate(t1.schemas, category) + [row], minted := t1.minted + 1), row)
  }

  function Without(rows: seq<SchemaRow>, category: nat): seq<SchemaRow> {
    if rows == [] then []
    else
      Without(rows[..|rows| - 1], category)
      + if rows[|rows| - 1].category == category then [] else [rows[|rows| - 1]]
  }

  predicate HasEvents(t: Tables, category: nat) {
    exists i | 0 <= i < |t.events| :: t.events[i].category == category
  }

  datatype DeleteResult = Deleted(tables: Tables) | NotFound | Restricted

  // DELETE FROM categories: cascades to schemas, restricted by events.
  function DeleteCategory(t: Tables, name: string): DeleteResult {
    if name !in t.categories then NotFound
    else if HasEvents(t, t.categories[name]) then Restricted
    else Deleted(t.(categories := t.categories - {name}, schemas := Without(t.schemas, t.categories[name])))
  }

  predicate HasSchema(t: Tables, id: nat) {
    exists i | 0 <= i < |t.schemas| :: t.schemas[i].id == id
  }

  // INSERT INTO events, with its two foreign keys.
  function InsertEvent(t: Tables, category: nat, schema: nat, e: Envelope): Option<Tables> {
    if category in t.categories.Values && HasSchema(t, schema)
    then Some(t.(events := t.events + [EventRow(category, schema, e)]))
    else None
  }

  // --- The version invariant ---

  // The rows of one category, oldest first.
  function RowsOf(rows: seq<SchemaRow>, category: nat): seq<SchemaRow> {
    if rows == [] then []
    else RowsOf(rows[..|rows| - 1], category) + if rows[|rows| - 1].category == category then [rows[|rows| - 1]] else []
  }

  // Versions 1..n, each once, and only n is active.
  ghost predicate Numbered(rows: seq<SchemaRow>) {
    && |rows| >= 1
    && forall i | 0 <= i < |rows| :: rows[i].version == i + 1 && (rows[i].active <==> i == |rows| - 1)
  }

  ghost predicate Inv(t: Tables) {
    && IdsFresh(t)
    && RowsLive(t)
    && DistinctIds(t.schemas)
    && AllNumbered(t)
  }

  // Category ids are handed out once.
  ghost predicate IdsFresh(t: Tables) {
    && (forall a, b | a in t.categories && b in t.categories && a != b :: t.categories[a] != t.categories[b])
    && (forall a | a in t.categories :: t.categories[a] < t.minted)
    && (forall i | 0 <= i < |t.schemas| :: t.schemas[i].id < t.minted)
  }

  ghost predicate DistinctIds(rows: seq<SchemaRow>) {
    forall i, j | 0 <= i < j < |rows| :: rows[i].id != rows[j].id
  }

  ghost predicate Live(t: Tables, category: nat) {
    exists a | a in t.categories :: t.categories[a] == category
  }

  // Foreign keys hold.
  ghost predicate RowsLive(t: Tables) {
    && (forall i | 0 <= i < |t.schemas| :: Live(t, t.schemas[i].category))
    && (forall i | 0 <= i < |t.events| :: Live(t, t.events[i].category))
  }

  ghost predicate AllNumbered(t: Tables) {
    forall a | a in t.categories :: Numbered(RowsOf(t.schemas, t.categories[a]))
  }

  // The current version of a category, 0 if it does not exist.
  function Current(t: Tables, name: string): nat {
    if name in t.categories then |RowsOf(t.schemas, t.categories[name])| else 0
  }

  lemma {:induction false} RowsOfDeactivate(rows: seq<SchemaRow>, done: nat, category: nat)
    ensures RowsOf(Deactivate(rows, done), category) ==
      if category == done then Deactivate(RowsOf(rows, category), done) else RowsOf(rows, category)
  {
    if rows != [] {
      var init := rows[..|rows| - 1];
      assert Deactivate(rows, done)[..|rows| - 1] == Deactivate(init, done);
      RowsOfDeactivate(init, done, category);
    }
  }

  lemma RowsOfAppend(rows: seq<SchemaRow>, row: SchemaRow, category: nat)
    ensures RowsOf(rows + [row], category) == RowsOf(rows, category) + if row.category == category then [row] else []
  {
    assert (rows + [row])[..|rows|] == rows;
  }

  lemma {:induction false} RowsOfWithout(rows: seq<SchemaRow>, gone: nat, category: nat)
    requires category != gone
    ensures RowsOf(Without(rows, gone), category) == RowsOf(rows, category)
  {
    if rows != [] {
      var init, last := rows[..|rows| - 1], rows[|rows| - 1];
      RowsOfWithout(init, gone, category);
      if last.category != gone {
        RowsOfAppend(Without(init, gone), last, category);
      } else {
        assert Without(rows, gone) == Without(init, gone) && RowsOf(rows, category) == RowsOf(init, category);
      }
    }
  }

  lemma {:induction false} RowsOfMembers(rows: seq<SchemaRow>, category: nat)
    ensures forall r :: r in RowsOf(rows, category) <==> r in rows && r.category == category
  {
    if rows != [] {
      RowsOfMembers(rows[..|rows| - 1], category);
      assert rows == rows[..|rows| - 1] + [rows[|rows| - 1]];
    }
  }

  lemma {:induction false} WithoutMembers(rows: seq<SchemaRow>, gone: nat)
    ensures forall r :: r in Without(rows, gone) <==> r in rows && r.category != gone
    ensures DistinctIds(rows) ==> DistinctIds(Without(rows, gone))
  {
    if rows != [] {
      var init, last := rows[..|rows| - 1], rows[|rows| - 1];
      WithoutMembers(init, gone);
      assert rows == init + [last];
      if DistinctIds(rows) {
        var w := Without(init, gone);
        assert forall r | r in init :: r.id != last.id;
        assert forall i | 0 <= i < |w| :: w[i] in w;
      }
    }
  }

  lemma {:induction false} NoRows(rows: seq<SchemaRow>, category: nat)
    requires forall i | 0 <= i < |rows| :: rows[i].category != category
    ensures RowsOf(rows, category) == []
  {
    if rows != [] { NoRows(rows[..|rows| - 1], category); }
  }

  lemma {:induction false} MaxVersionOfRows(rows: seq<SchemaRow>, category: nat, onlyActive: bool)
    ensures MaxVersion(rows, category, onlyActive) == MaxVersion(RowsOf(rows, category), category, onlyActive)
    ensures BestActive(rows, category) == BestActive(RowsOf(rows, category), category)
  {
    if rows != [] {
      var init, last := rows[..|rows| - 1], rows[|rows| - 1];
      MaxVersionOfRows(init, category, onlyActive);
      if last.category == category {
        assert RowsOf(rows, category)[..|RowsOf(init, category)|] == RowsOf(init, category);
      } else {
        assert RowsOf(rows, category) == RowsOf(init, category);
      }
    }
  }

  // What the queries answer on a list of rows numbered 1..n, whatever is active among them.
  lemma {:induction false} NumberedQueries(rows: seq<SchemaRow>, category: nat)
    requires forall i | 0 <= i < |rows| :: rows[i].version == i + 1 && rows[i].category == category
    ensures MaxVersion(rows, category, false) == |rows|
    ensures (forall i | 0 <= i < |rows| :: !rows[i].active)
      ==> MaxVersion(rows, category, true) == 0 && BestActive(rows, category) == None
    ensures Numbered(rows)
      ==> MaxVersion(rows, category, true) == |rows| && BestActive(rows, category) == Some(rows[|rows| - 1])
  {
    if rows != [] { NumberedQueries(rows[..|rows| - 1], category); }
  }

  lemma RowsOfCategory(rows: seq<SchemaRow>, category: nat)
    ensures forall i | 0 <= i < |RowsOf(rows, category)| :: RowsOf(rows, category)[i].category == category
  {
    RowsOfMembers(rows, category);
    assert forall i | 0 <= i < |RowsOf(rows, category)| :: RowsOf(rows, category)[i] in RowsOf(rows, category);
  }

  // GetActiveSchema, ListCategories and InsertEvent's lookup agree: they all see the newest version.
  lemma QueriesAgree(t: Tables, name: string)
    requires Inv(t) && name in t.categories
    ensures Current(t, name) >= 1
    ensures ActiveSchema(t, name).Some?
      && ActiveSchema(t, name).value.version == Current(t, name) == ListedVersion(t, name)
    ensures ActiveSchema(t, name).value == RowsOf(t.schemas, t.categories[name])[Current(t, name) - 1]
    ensures ActiveSchema(t, name).value in t.schemas
    ensures ResolveForInsert(t, name) == Some((t.categories[name], ActiveSchema(t, name).value.id))
  {
    var category := t.categories[name];
    MaxVersionOfRows(t.schemas, category, true);
    RowsOfCategory(t.schemas, category);
    NumberedQueries(RowsOf(t.schemas, category), category);
    RowsOfMembers(t.schemas, category);
  }

  // Queries depend only on the category's own rows.
  lemma SameRowsSameAnswers(t: Tables, t': Tables, name: string)
    requires Inv(t) && Inv(t') && name in t.categories && name in t'.categories
    requires RowsOf(t.schemas, t.categories[name]) == RowsOf(t'.schemas, t'.categories[name])
    ensures Current(t', name) == Current(t, name) && ActiveSchema(t', name) == ActiveSchema(t, name)
  {
    QueriesAgree(t, name);
    QueriesAgree(t', name);
    hide RowsOf; hide Inv; hide BestActive;
  }

  // --- Steps ---

  // The rows of every category after a version is created.
  lemma CreateVersionRows(t: Tables, name: string, document: Schema, routing: Routing, c: nat)
    requires Inv(t)
    ensures var (t', row) := CreateVersion(t, name, document, routing);
      && row.version == Current(t, name) + 1
      && RowsOf(t'.schemas, c)
         == (if c == row.category then Deactivate(RowsOf(t.schemas, c), c) + [row] else RowsOf(t.schemas, c))
      && (name !in t.categories ==> RowsOf(t.schemas, row.category) == [])
  {
    var (t', row) := CreateVersion(t, name, document, routing);
    var category := row.category;
    if name !in t.categories {
      assert !Live(t, category);
      NoRows(t.schemas, category);
    }
    RowsOfCategory(t.schemas, category);
    MaxVersionOfRows(t.schemas, category, false);
    NumberedQueries(RowsOf(t.schemas, category), category);
    RowsOfDeactivate(t.schemas, category, c);
    RowsOfAppend(Deactivate(t.schemas, category), row, c);
  }

  lemma CreateVersionCategories(t: Tables, name: string, document: Schema, routing: Routing)
    ensures var (t', row) := CreateVersion(t, name, document, routing);
      && t'.categories == t.categories[name := row.category]
      && row.category == (if name in t.categories then t.categories[name] else t.minted)
      && t'.events == t.events && row.active
      && row.document == document && row.routing == routing
  {
    assert name in t.categories ==> t.categories == t.categories[name := t.categories[name]];
  }

  lemma CreateVersionKeepsIds(t: Tables, name: string, document: Schema, routing: Routing)
    requires IdsFresh(t) && DistinctIds(t.schemas)
    ensures var t' := CreateVersion(t, name, document, routing).0; IdsFresh(t') && DistinctIds(t'.schemas)
  {
  }

  lemma CreateVersionKeepsLive(t: Tables, name: string, document: Schema, routing: Routing)
    requires RowsLive(t)
    ensures RowsLive(CreateVersion(t, name, document, routing).0)
  {
    var (t', row) := CreateVersion(t, name, document, routing);
    forall c | Live(t, c) ensures Live(t', c) {
      var a :| a in t.categories && t.categories[a] == c;
      assert t'.categories[a] == c;
    }
    assert t'.categories[name] == row.category;
  }

  lemma CreateVersionKeepsNumbers(t: Tables, name: string, document: Schema, routing: Routing, a: string)
    requires Inv(t) && a in CreateVersion(t, name, document, routing).0.categories
    ensures var t' := CreateVersion(t, name, document, routing).0; Numbered(RowsOf(t'.schemas, t'.categories[a]))
  {
    var (t', row) := CreateVersion(t, name, document, routing);
    CreateVersionCategories(t, name, document, routing);
    CreateVersionRows(t, name, document, routing, t'.categories[a]);
    RowsOfCategory(t.schemas, row.category);
    assert name in t.categories ==> Numbered(RowsOf(t.schemas, row.category));
    assert a != name ==> t'.categories[a] != row.category && Numbered(RowsOf(t.schemas, t.categories[a]));
    hide CreateVersion; hide RowsOf; hide Deactivate; hide Inv; hide Numbered;
    if a == name {
      NumberedNext(RowsOf(t.schemas, row.category), row);
    }
  }

  lemma CreateVersionKeepsInv(t: Tables, name: string, document: Schema, routing: Routing)
    requires Inv(t)
    ensures Inv(CreateVersion(t, name, document, routing).0)
  {
    var t' := CreateVersion(t, name, document, routing).0;
    CreateVersionKeepsIds(t, name, document, routing);
    CreateVersionKeepsLive(t, name, document, routing);
    hide CreateVersion; hide RowsOf; hide RowsLive; hide IdsFresh; hide Numbered; hide DistinctIds;
    forall a | a in t'.categories ensures Numbered(RowsOf(t'.schemas, t'.categories[a])) {
      CreateVersionKeepsNumbers(t, name, document, routing, a);
    }
  }

  lemma NumberedNext(prior: seq<SchemaRow>, row: SchemaRow)
    requires prior == [] || Numbered(prior)
    requires forall i | 0 <= i < |prior| :: prior[i].category == row.category
    requires row.version == |prior| + 1 && row.active
    ensures Numbered(Deactivate(prior, row.category) + [row])
  {
  }

  // What creating a version does: the next number, for the named category only.
  lemma CreateVersionEffect(t: Tables, name: string, document: Schema, routing: Routing)
    requires Inv(t)
    ensures var (t', row) := CreateVersion(t, name, document, routing);
      && Inv(t')
      && row.version == Current(t, name) + 1 == Current(t', name)
      && row.document == document && row.routing == routing
      && name in t'.categories && ActiveSchema(t', name) == Some(row)
      && (name in t.categories ==> t'.categories == t.categories)
      && t'.events == t.events
  {
    var (t', row) := CreateVersion(t, name, document, routing);
    CreateVersionCategories(t, name, document, routing);
    CreateVersionKeepsInv(t, name, document, routing);
    CreateVersionRows(t, name, document, routing, row.category);
    hide CreateVersion; hide RowsOf; hide Inv;
    QueriesAgree(t', name);
  }

  lemma CreateVersionElsewhere(t: Tables, name: string, document: Schema, routing: Routing, other: string)
    requires Inv(t) && other != name
    ensures var t' := CreateVersion(t, name, document, routing).0;
      && (other in t'.categories <==> other in t.categories)
      && (other in t.categories ==> t'.categories[other] == t.categories[other])
      && Current(t', other) == Current(t, other) && ActiveSchema(t', other) == ActiveSchema(t, other)
  {
    var (t', row) := CreateVersion(t, name, document, routing);
    CreateVersionCategories(t, name, document, routing);
    hide CreateVersion;
    if other in t.categories {
      CreateVersionKeepsInv(t, name, document, routing);
      CreateVersionRows(t, name, document, routing, t.categories[other]);
      assert t.categories[other] != row.category;
      hide RowsOf; hide Inv; hide ActiveSchema; hide Current;
      SameRowsSameAnswers(t, t', other);
    }
  }

  lemma DeleteKeepsInv(t: Tables, name: string)
    requires Inv(t) && DeleteCategory(t, name).Deleted?
    ensures Inv(DeleteCategory(t, name).tables)
  {
    var t', gone := DeleteCategory(t, name).tables, t.categories[name];
    WithoutMembers(t.schemas, gone);
    assert forall i | 0 <= i < |t'.schemas| :: t'.schemas[i] in t'.schemas;
    assert RowsLive(t') by {
      forall c | Live(t, c) && c != gone ensures Live(t', c) {
        var a :| a in t.categories && t.categories[a] == c;
        assert t'.categories[a] == c;
      }
    }
    forall a | a in t'.categories ensures RowsOf(t'.schemas, t'.categories[a]) == RowsOf(t.schemas, t.categories[a]) {
      RowsOfWithout(t.schemas, gone, t.categories[a]);
    }
  }

  // A category is deleted unless it is missing or has events; no other category notices.
  lemma DeleteEffect(t: Tables, name: string, other: string)
    requires Inv(t)
    ensures match DeleteCategory(t, name)
      case NotFound => name !in t.categories
      case Restricted =>
        name in t.categories && exists i | 0 <= i < |t.events| :: t.events[i].category == t.categories[name]
      case Deleted(t') =>
        && name in t.categories && (forall i | 0 <= i < |t.events| :: t.events[i].category != t.categories[name])
        && Inv(t') && t'.categories == t.categories - {name} && t'.events == t.events
        && (other != name
            ==> Current(t', other) == Current(t, other) && ActiveSchema(t', other) == ActiveSchema(t, other))
  {
    if DeleteCategory(t, name).Deleted? {
      var t', gone := DeleteCategory(t, name).tables, t.categories[name];
      DeleteKeepsInv(t, name);
      if other in t'.categories {
        assert t.categories[other] != gone;
        RowsOfWithout(t.schemas, gone, t.categories[other]);
        hide RowsOf; hide Inv; hide Without; hide HasEvents; hide ActiveSchema; hide Current;
        SameRowsSameAnswers(t, t', other);
      }
    }
  }

  // A category without events can be deleted, and then its numbering starts again at 1.
  lemma DeletedCategoryRestarts(t: Tables, name: string, document: Schema, routing: Routing)
    requires Inv(t) && name in t.categories
    ensures (forall i | 0 <= i < |t.events| :: t.events[i].category != t.categories[name])
      <==> DeleteCategory(t, name).Deleted?
    ensures DeleteCategory(t, name).Deleted?
      ==> CreateVersion(DeleteCategory(t, name).tables, name, document, routing).1.version == 1
  {
    if DeleteCategory(t, name).Deleted? {
      DeleteKeepsInv(t, name);
      CreateVersionEffect(DeleteCategory(t, name).tables, name, document, routing);
    }
  }

  // --- Runs ---

  datatype Op =
    | Create(name: string, document: Schema, routing: Routing)
    | Delete(name: string)
    | Insert(category: nat, schema: nat, envelope: Envelope)

  function Apply(t: Tables, op: Op): Tables {
    match op
    case Create(name, document, routing) => CreateVersion(t, name, document, routing).0
    case Delete(name) => (match DeleteCategory(t, name) case Deleted(t') => t' case _ => t)
    case Insert(category, schema, e) => (match InsertEvent(t, category, schema, e) case Some(t') => t' case None => t)
  }

  function RunOps(t: Tables, ops: seq<Op>): Tables {
    if ops == [] then t else Apply(RunOps(t, ops[..|ops| - 1]), ops[|ops| - 1])
  }

  lemma ApplyKeepsInv(t: Tables, op: Op)
    requires Inv(t)
    ensures Inv(Apply(t, op))
  {
    match op
    case Create(name, document, routing) => CreateVersionEffect(t, name, document, routing);
    case Delete(name) => if DeleteCategory(t, name).Deleted? { DeleteKeepsInv(t, name); }
    case Insert(category, schema, e) => InsertKeepsInv(t, category, schema, e);
  }

  lemma InsertKeepsInv(t: Tables, category: nat, schema: nat, e: Envelope)
    requires Inv(t)
    ensures var r := InsertEvent(t, category, schema, e); r.Some? ==> Inv(r.value)
  {
    if InsertEvent(t, category, schema, e).Some? {
      var t' := InsertEvent(t, category, schema, e).value;
      forall c | Live(t, c) ensures Live(t', c) {}
      var a :| a in t.categories && t.categories[a] == category;
      assert Live(t', category);
    }
  }

  // After any sequence of creates, deletes and inserts, every live category has versions 1..n
  // of which exactly n is active.
  lemma {:induction false} EveryRunNumbered(ops: seq<Op>)
    ensures Inv(RunOps(EMPTY, ops))
  {
    if ops != [] {
      EveryRunNumbered(ops[..|ops| - 1]);
      ApplyKeepsInv(RunOps(EMPTY, ops[..|ops| - 1]), ops[|ops| - 1]);
    }
  }

  // A category that has routed events keeps its id for good, and its version never goes back.
  lemma {:induction false} RoutedCategoryNeverRestarts(t: Tables, name: string, ops: seq<Op>)
    requires Inv(t) && name in t.categories && HasEvents(t, t.categories[name])
    ensures KeepsNumbering(t, RunOps(t, ops), name)
  {
    if ops != [] {
      RoutedCategoryNeverRestarts(t, name, ops[..|ops| - 1]);
      OpKeepsNumbering(t, RunOps(t, ops[..|ops| - 1]), name, ops[|ops| - 1]);
    }
  }

  // The category is still there, under the same id, with its events, and not at an earlier version.
  ghost predicate KeepsNumbering(t: Tables, t': Tables, name: string)
    requires name in t.categories
  {
    && Inv(t') && name in t'.categories && t'.categories[name] == t.categories[name]
    && HasEvents(t', t.categories[name]) && Current(t', name) >= Current(t, name)
  }

  lemma OpKeepsNumbering(t: Tables, t1: Tables, name: string, op: Op)
    requires name in t.categories && KeepsNumbering(t, t1, name)
    ensures KeepsNumbering(t, Apply(t1, op), name)
  {
    ApplyKeepsInv(t1, op);
    hide Inv; hide Current; hide CreateVersion; hide DeleteCategory;
    match op
    case Create(other, document, routing) =>
      CreateVersionEffect(t1, other, document, routing);
      if other != name { CreateVersionElsewhere(t1, other, document, routing, name); }
    case Delete(other) =>
      DeleteEffect(t1, other, name);
    case Insert(category, schema, e) =>
      InsertKeepsNumbering(t1, category, schema, e, name);
  }

  lemma InsertKeepsNumbering(t: Tables, category: nat, schema: nat, e: Envelope, name: string)
    requires name in t.categories && HasEvents(t, t.categories[name])
    ensures var t' := Apply(t, Op.Insert(category, schema, e));
      && t'.categories == t.categories && HasEvents(t', t.categories[name]) && Current(t', name) == Current(t, name)
  {
    var t' := Apply(t, Op.Insert(category, schema, e));
    var i :| 0 <= i < |t.events| && t.events[i].category == t.categories[name];
    assert t'.events[i].category == t.categories[name];
  }
}
