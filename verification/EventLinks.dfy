/**
 What every event row refers to (internal/normalizer/store.go:61-79 over
 migrations/0001_init.sql:97-108): the category that its envelope names, under the id it has had
 ever since, and a version of that category. Ids that were resolved before a category was deleted
 are refused.
 */
module EventLinks {
  import opened SchemaInference
  import opened Envelopes
  import opened RegistryTables
  import opened Normalizer
  import opened NormalizerRuns
  import opened Origins
  import opened ReplayForward

  // The row's category is the one its envelope names, and its schema is one of that category's.
  ghost predicate Linked(t: Tables, row: EventRow) {
    && row.envelope.category in t.categories && t.categories[row.envelope.category] == row.category
    && exists i | 0 <= i < |t.schemas| :: t.schemas[i].id == row.schema && t.schemas[i].category == row.category
  }

  ghost predicate AllLinked(t: Tables) {
    forall i | 0 <= i < |t.events| :: Linked(t, t.events[i])
  }

  // Ids that were once the category's and one of its versions'. No others can have them.
  ghost predicate Resolved(t: Tables, name: string, category: nat, schema: nat) {
    && category < t.minted && schema < t.minted
    && (forall n | n in t.categories && t.categories[n] == category :: n == name)
    && (forall i | 0 <= i < |t.schemas| && t.schemas[i].id == schema :: t.schemas[i].category == category)
  }

  lemma ResolveResolves(t: Tables, name: string)
    requires Inv(t) && ResolveForInsert(t, name).Some?
    ensures var (category, schema) := ResolveForInsert(t, name).value; Resolved(t, name, category, schema)
  {
    QueriesAgree(t, name);
    var active := ActiveSchema(t, name).value;
    var k :| 0 <= k < |t.schemas| && t.schemas[k] == active;
    assert active.category == t.categories[name] by { RegistryTables.RowsOfCategory(t.schemas, t.categories[name]); }
    hide BestActive; hide RowsOf; hide Numbered; hide Current;
  }

  lemma InsertLinks(t: Tables, category: nat, schema: nat, e: Envelope)
    requires AllLinked(t) && Resolved(t, e.category, category, schema)
    ensures AllLinked(Apply(t, Op.Insert(category, schema, e)))
  {
    var t' := Apply(t, Op.Insert(category, schema, e));
    if InsertEvent(t, category, schema, e).Some? {
      var n :| n in t.categories && t.categories[n] == category;
      var i :| 0 <= i < |t.schemas| && t.schemas[i].id == schema;
      forall j | 0 <= j < |t'.events| ensures Linked(t', t'.events[j]) {
        if j < |t.events| { assert Linked(t, t.events[j]); }
      }
    }
  }

  // Rows keep their ids and categories when a version is created.
  lemma CreateKeepsLinks(t: Tables, name: string, document: Schema, routing: Routing)
    requires Inv(t) && AllLinked(t)
    ensures AllLinked(CreateVersion(t, name, document, routing).0)
  {
    var t' := CreateVersion(t, name, document, routing).0;
    CreateVersionCategories(t, name, document, routing);
    assert forall i | 0 <= i < |t.schemas| ::
      t'.schemas[i].id == t.schemas[i].id && t'.schemas[i].category == t.schemas[i].category;
    hide Inv; hide MaxVersion; hide CreateVersion;
    forall j | 0 <= j < |t'.events| ensures Linked(t', t'.events[j]) {
      var row := t.events[j];
      assert t'.events[j] == row && Linked(t, row);
      var i :| 0 <= i < |t.schemas| && t.schemas[i].id == row.schema && t.schemas[i].category == row.category;
      assert t'.schemas[i].id == row.schema && t'.schemas[i].category == row.category;
    }
  }

  // A category that is deleted has no events, and no other category's rows go.
  lemma DeleteKeepsLinks(t: Tables, name: string)
    requires Inv(t) && AllLinked(t) && DeleteCategory(t, name).Deleted?
    ensures AllLinked(DeleteCategory(t, name).tables)
  {
    var t', gone := DeleteCategory(t, name).tables, t.categories[name];
    WithoutMembers(t.schemas, gone);
    hide Inv; hide Without;
    forall j | 0 <= j < |t'.events| ensures Linked(t', t'.events[j]) {
      var row := t.events[j];
      assert Linked(t, row) && row.category != gone;
      var i :| 0 <= i < |t.schemas| && t.schemas[i].id == row.schema && t.schemas[i].category == row.category;
      assert t.schemas[i] in t'.schemas;
      var k :| 0 <= k < |t'.schemas| && t'.schemas[k] == t.schemas[i];
    }
  }

  lemma ApplyKeepsLinks(t: Tables, op: Op)
    requires Inv(t) && AllLinked(t)
    requires op.Insert? ==> Resolved(t, op.envelope.category, op.category, op.schema)
    ensures AllLinked(Apply(t, op))
  {
    hide CreateVersion; hide DeleteCategory; hide Inv; hide Resolved; hide AllLinked;
    match op
    case Create(name, document, routing) => CreateKeepsLinks(t, name, document, routing);
    case Delete(name) => if DeleteCategory(t, name).Deleted? { DeleteKeepsLinks(t, name); }
    case Insert(category, schema, e) => InsertLinks(t, category, schema, e);
  }

  lemma ApplyKeepsResolved(t: Tables, op: Op, name: string, category: nat, schema: nat)
    requires Inv(t) && Resolved(t, name, category, schema)
    ensures Resolved(Apply(t, op), name, category, schema)
  {
    match op
    case Create(other, document, routing) =>
      CreateVersionCategories(t, other, document, routing);
      hide MaxVersion; hide Inv;
    case Delete(other) =>
      if DeleteCategory(t, other).Deleted? {
        var t' := DeleteCategory(t, other).tables;
        WithoutMembers(t.schemas, t.categories[other]);
        hide Without; hide Inv;
        forall i | 0 <= i < |t'.schemas| && t'.schemas[i].id == schema ensures t'.schemas[i].category == category {
          assert t'.schemas[i] in t'.schemas;
          var k :| 0 <= k < |t.schemas| && t.schemas[k] == t'.schemas[i];
        }
      }
    case Insert(_, _, _) => hide Inv;
  }

  // --- Runs ---

  // A call that is about to insert has resolved its ids.
  ghost predicate CallResolved(t: Tables, c: Call) {
    c.pc.Insert? ==> Resolved(t, c.env.category, c.pc.categoryId, c.pc.schemaId)
  }

  ghost predicate TaskResolved(t: Tables, task: Task) {
    CallOf(task).Some? ==> CallResolved(t, CallOf(task).value)
  }

  ghost predicate AllResolved(st: Sys) {
    && Inv(st.s.tables) && AllLinked(st.s.tables)
    && forall i | 0 <= i < |st.tasks| :: TaskResolved(st.s.tables, st.tasks[i])
  }

  // The first step of an insert resolves; the others leave the ids alone.
  lemma CallStepResolves(s: Shared, c: Call, a: Answer)
    requires Inv(s.tables) && CallResolved(s.tables, c) && !c.pc.Returned()
    ensures var c1 := CallStep(s, c, a).1;
      c1.pc.Insert? ==> Resolved(s.tables, c1.env.category, c1.pc.categoryId, c1.pc.schemaId)
  {
    if ResolveForInsert(s.tables, c.env.category).Some? { ResolveResolves(s.tables, c.env.category); }
    hide Resolved; hide Inv; hide ResolveForInsert; hide RegistryTables.InsertEvent; hide RegistryClient.Get;
    hide RegistryClient.Answer; hide Validate; hide QuarantineTable.Upsert; hide Destinations;
  }

  // The tables after a call's step, by the insert it makes.
  lemma TaskStepResolves(s: Shared, t: Task, a: Answer)
    requires Inv(s.tables) && AllLinked(s.tables) && TaskResolved(s.tables, t)
    requires CallOf(t).Some? ==> !CallOf(t).value.pc.Returned()
    ensures var (s', t') := TaskStep(s, t, a);
      && AllLinked(s'.tables) && TaskResolved(s'.tables, t')
      && (forall name, category, schema | Resolved(s.tables, name, category, schema) ::
            Resolved(s'.tables, name, category, schema))
  {
    hide Inv; hide AllLinked; hide Resolved; hide TaskStep; hide CallStep; hide Apply; hide AfterStep;
    var s', t' := TaskStep(s, t, a).0, TaskStep(s, t, a).1;
    if CallOf(t).Some? {
      var c := CallOf(t).value;
      CallingStep(s, t, a);
      CallTables(s, c, a);
      CallStepResolves(s, c, a);
      AfterStepCall(t, CallStep(s, c, a).1);
      if s'.tables != s.tables {
        var op := Op.Insert(c.pc.categoryId, c.pc.schemaId, c.env);
        ApplyKeepsLinks(s.tables, op);
        forall name, category, schema | Resolved(s.tables, name, category, schema)
          ensures Resolved(s'.tables, name, category, schema)
        {
          ApplyKeepsResolved(s.tables, op, name, category, schema);
        }
      }
    } else {
      IdleStep(s, t, a);
      IdleCall(s, t, a);
    }
  }

  // A task in a call is in the call's next position, or starts another.
  lemma AfterStepCall(t: Task, c: Call)
    requires CallOf(t).Some?
    ensures var t' := AfterStep(t, c); CallOf(t').Some? && CallOf(t').value.pc.Insert? ==> CallOf(t').value == c
  {
    hide Decode;
  }

  lemma IdleCall(s: Shared, t: Task, a: Answer)
    requires CallOf(t).None?
    ensures var t' := TaskStep(s, t, a).1; CallOf(t').Some? ==> CallOf(t').value.pc.Start?
  {
    hide Decode; hide CallStep; hide QuarantineTable.PendingOf; hide QuarantineTable.IndexOf;
    hide QuarantineTable.Mark; hide QuarantineTable.Bump; hide RegistryClient.Get; hide RegistryClient.Answer;
  }

  lemma TasksResolved(st: Sys, tables: Tables)
    requires AllResolved(st)
    requires forall name, category, schema | Resolved(st.s.tables, name, category, schema) ::
      Resolved(tables, name, category, schema)
    ensures forall i | 0 <= i < |st.tasks| :: TaskResolved(tables, st.tasks[i])
  {
    hide Inv; hide AllLinked; hide Resolved; hide CallOf;
    forall i | 0 <= i < |st.tasks| ensures TaskResolved(tables, st.tasks[i]) {
      assert TaskResolved(st.s.tables, st.tasks[i]);
    }
  }

  lemma ActResolves(st: Sys, i: nat, a: Answer)
    requires Sound(st) && AllResolved(st) && i < |st.tasks|
    ensures AllLinked(ActOf(st, i, a).s.tables)
    ensures forall j | 0 <= j < |st.tasks| :: TaskResolved(ActOf(st, i, a).s.tables, ActOf(st, i, a).tasks[j])
  {
    var t := st.tasks[i];
    assert TaskFits(st.messages, t) && TaskResolved(st.s.tables, t);
    NotReturnedYet(st.messages, t);
    hide Sound; hide Inv; hide AllLinked; hide Resolved; hide TaskStep; hide TaskFits; hide CallOf; hide TaskResolved;
    TaskStepResolves(st.s, t, a);
    TasksResolved(st, TaskStep(st.s, t, a).0.tables);
  }

  lemma NotReturnedYet(ms: Messages, t: Task)
    requires TaskFits(ms, t)
    ensures CallOf(t).Some? ==> !CallOf(t).value.pc.Returned()
  {
  }

  lemma OpResolves(st: Sys, op: Op)
    requires AllResolved(st) && !op.Insert?
    ensures AllLinked(Apply(st.s.tables, op))
    ensures forall i | 0 <= i < |st.tasks| :: TaskResolved(Apply(st.s.tables, op), st.tasks[i])
  {
    hide Inv; hide AllLinked; hide Resolved; hide Apply; hide TaskResolved;
    ApplyKeepsLinks(st.s.tables, op);
    forall name, category, schema | Resolved(st.s.tables, name, category, schema)
      ensures Resolved(Apply(st.s.tables, op), name, category, schema)
    {
      ApplyKeepsResolved(st.s.tables, op, name, category, schema);
    }
    TasksResolved(st, Apply(st.s.tables, op));
  }

  lemma NextResolves(st: Sys, a: Action)
    requires Sound(st) && AllResolved(st)
    ensures AllResolved(Next(st, a))
  {
    NextInv(st, a);
    hide Sound; hide Inv; hide AllLinked; hide Apply; hide TaskStep; hide NewId; hide CallResolved;
    match a
    case Act(i, answer) => if i < |st.tasks| { ActResolves(st, i, answer); }
    case Create(name, document, routing) => OpResolves(st, Op.Create(name, document, routing));
    case Delete(name) => OpResolves(st, Op.Delete(name));
    case PublishMessage(_) =>
    case Announce(_) =>
    case _ => BeginResolves(st, a);
  }

  lemma BeginResolves(st: Sys, a: Action)
    requires AllResolved(st) && (a.Deliver? || a.DeliverApproval? || a.HandCategory? || a.HandOne?)
    ensures AllResolved(Next(st, a))
  {
    hide Inv; hide AllLinked;
    if Next(st, a) != st {
      var t := Next(st, a).tasks[|st.tasks|];
      assert Next(st, a) == StartTask(st, t) && TaskResolved(st.s.tables, t);
      hide TaskResolved;
    }
  }

  // Main result: in every run, whatever is deleted and created between the resolution of the ids and
  // the insert, each event row is linked to the category its envelope names and to one of its versions.
  lemma {:induction false} EveryEventLinked(lokiSet: bool, actions: seq<Action>)
    ensures AllResolved(Run(lokiSet, actions))
  {
    if actions != [] {
      EveryEventLinked(lokiSet, actions[..|actions| - 1]);
      EveryRunSound(lokiSet, actions[..|actions| - 1]);
      NextResolves(Run(lokiSet, actions[..|actions| - 1]), actions[|actions| - 1]);
    }
  }
}
