/**
 How often an event can be stored, bounded by what can be seen beforehand: the routing of the
 versions that are created, and the deliveries and replays that are started.
 */
module RowBounds {
  import opened Prelude
  import opened Envelopes
  import opened RegistryTables
  import opened RegistryClient
  import opened QuarantineTable
  import opened Normalizer
  import opened NormalizerRuns
  import opened Origins
  import opened NormalizerCounts
  import opened ServedSchemas

  // --- What a call can insert ---

  // How many rows one event leaves if it is routed along this list.
  function RowsPerEvent(routing: Routing): nat {
    var dests := Destinations(routing);
    PostgresAmong(dests, |dests|)
  }

  // Every version that is created stores an event at most n times.
  ghost predicate CreatesStore(actions: seq<Action>, n: nat) {
    forall i | 0 <= i < |actions| && actions[i].Create? :: RowsPerEvent(actions[i].routing) <= n
  }

  ghost predicate TablesStore(t: Tables, n: nat) {
    forall row | row in t.schemas :: RowsPerEvent(row.routing) <= n
  }

  ghost function Storing(n: nat): Known {
    Known(iset c: string, schema: RegistrySchema | RowsPerEvent(schema.routing) <= n :: (c, schema),
          iset c: string | |c| >= 0)
  }

  lemma {:induction false} BestActiveIn(rows: seq<SchemaRow>, category: nat)
    ensures var best := BestActive(rows, category); best.Some? ==> best.value in rows
  {
    if rows != [] { BestActiveIn(rows[..|rows| - 1], category); }
  }

  lemma StoringServes(t: Tables, n: nat)
    requires TablesStore(t, n)
    ensures Serves(t, Storing(n))
  {
    hide RowsPerEvent; hide BestActive;
    forall c | Serve(t, c).Ok200? ensures (c, Serve(t, c).schema) in Storing(n).served {
      BestActiveIn(t.schemas, t.categories[c]);
    }
  }

  lemma ApplyStores(t: Tables, op: Op, n: nat)
    requires TablesStore(t, n) && (op.Create? ==> RowsPerEvent(op.routing) <= n)
    ensures TablesStore(Apply(t, op), n)
  {
    hide RowsPerEvent; hide MaxVersion;
    match op
    case Create(name, document, routing) =>
      var (t', row) := CreateVersion(t, name, document, routing);
      forall r | r in t'.schemas ensures RowsPerEvent(r.routing) <= n {
        var i :| 0 <= i < |t'.schemas| && t'.schemas[i] == r;
        if i < |t.schemas| { assert t.schemas[i] in t.schemas; }
      }
    case Delete(name) => if DeleteCategory(t, name).Deleted? { WithoutMembers(t.schemas, t.categories[name]); }
    case Insert(_, _, _) =>
  }

  lemma TaskKeepsSchemas(s: Shared, t: Task, a: Answer)
    requires CallOf(t).Some? ==> !CallOf(t).value.pc.Returned()
    ensures TaskStep(s, t, a).0.tables.schemas == s.tables.schemas
  {
    hide TaskStep; hide CallStep; hide AfterStep;
    if CallOf(t).Some? {
      CallingStep(s, t, a);
      CallTouches(s, CallOf(t).value, a);
    } else {
      IdleStep(s, t, a);
    }
  }

  lemma NextStores(st: Sys, a: Action, n: nat)
    requires Sound(st) && TablesStore(st.s.tables, n) && (a.Create? ==> RowsPerEvent(a.routing) <= n)
    ensures TablesStore(Next(st, a).s.tables, n)
  {
    hide RowsPerEvent; hide Apply; hide TaskStep; hide NewId;
    match a
    case Create(name, document, routing) => ApplyStores(st.s.tables, Op.Create(name, document, routing), n);
    case Delete(name) => ApplyStores(st.s.tables, Op.Delete(name), n);
    case Act(i, answer) =>
      if i < |st.tasks| {
        NotReturned(st.messages, st.tasks[i]) by { assert TaskFits(st.messages, st.tasks[i]); }
        hide Sound; hide CallOf;
        TaskKeepsSchemas(st.s, st.tasks[i], answer);
      }
    case _ => hide Sound;
  }

  lemma {:induction false} EveryRunStores(lokiSet: bool, actions: seq<Action>, n: nat)
    requires CreatesStore(actions, n)
    ensures TablesStore(Run(lokiSet, actions).s.tables, n) && AllFrom(Run(lokiSet, actions), Storing(n))
  {
    if actions != [] {
      var init := actions[..|actions| - 1];
      EveryRunStores(lokiSet, init, n);
      EveryRunSound(lokiSet, init);
      var st := Run(lokiSet, init);
      hide AllFrom; hide Sound; hide TablesStore; hide Storing; hide Next; hide RowsPerEvent;
      NextStores(st, actions[|actions| - 1], n);
      StoringServes(st.s.tables, n);
      NextFrom(st, actions[|actions| - 1], Storing(n));
    }
  }

  lemma {:induction false} PostgresGrows(dests: seq<string>, k: nat)
    requires k <= |dests|
    ensures PostgresAmong(dests, k) <= PostgresAmong(dests, |dests|)
    decreases |dests| - k
  {
    if k < |dests| { PostgresGrows(dests, k + 1); }
  }

  // A call inserts no more than one event's rows.
  lemma CallStores(c: Call, n: nat)
    requires CallFrom(c, Storing(n))
    ensures Inserted(c.pc) <= n
  {
    hide Destinations; hide ToPostgres;
    match c.pc
    case Route(schema, next) => UpTo(Destinations(schema.routing), next);
    case Insert(schema, next, _, _) => UpTo(Destinations(schema.routing), next);
    case Failed(dests, done) => UpTo(dests, done);
    case _ =>
  }

  lemma UpTo(dests: seq<string>, k: nat)
    ensures PostgresAmong(dests, k) <= PostgresAmong(dests, |dests|)
  {
    if k <= |dests| { PostgresGrows(dests, k); }
  }

  // --- Per attempt ---

  function OnCall(e: Envelope): Call -> bool {
    (c: Call) => c.env == e
  }

  function OnTask(e: Envelope): Task -> bool {
    (t: Task) => CallOf(t).Some? && CallOf(t).value.env == e
  }

  ghost predicate CallsAtMost(calls: seq<Call>, e: Envelope, n: nat) {
    forall c | c in calls && c.env == e :: Inserted(c.pc) <= n
  }

  ghost predicate TasksAtMost(tasks: seq<Task>, e: Envelope, n: nat) {
    forall t | t in tasks && OnTask(e)(t) :: Inserted(CallOf(t).value.pc) <= n
  }

  lemma CallsBounded(calls: seq<Call>, e: Envelope, n: nat)
    requires CallsAtMost(calls, e, n)
    ensures Sum(calls, CallRows(e)) <= n * Count(calls, OnCall(e))
  {
    hide Inserted;
    forall i | 0 <= i < |calls| ensures CallRows(e)(calls[i]) <= if OnCall(e)(calls[i]) then n else 0 {
      assert calls[i].env != e ==> CallRows(e)(calls[i]) == 0;
    }
    SumBound(calls, CallRows(e), OnCall(e), n);
  }

  lemma TasksBounded(tasks: seq<Task>, e: Envelope, n: nat)
    requires TasksAtMost(tasks, e, n)
    ensures Sum(tasks, TaskRows(e)) <= n * Count(tasks, OnTask(e))
  {
    hide Inserted; hide CallOf;
    forall i | 0 <= i < |tasks| ensures TaskRows(e)(tasks[i]) <= if OnTask(e)(tasks[i]) then n else 0 {
      assert !OnTask(e)(tasks[i]) ==> TaskRows(e)(tasks[i]) == 0;
    }
    SumBound(tasks, TaskRows(e), OnTask(e), n);
  }

  // Main result: an event has at most attempts x n rows, where no version that is created stores an
  // event more than n times.
  lemma RowsBounded(lokiSet: bool, actions: seq<Action>, e: Envelope, n: nat)
    requires CreatesStore(actions, n)
    ensures var st := Run(lokiSet, actions);
      Count(st.s.tables.events, IsFor(e)) <= n * (Count(st.s.finished, OnCall(e)) + Count(st.tasks, OnTask(e)))
  {
    var st := Run(lokiSet, actions);
    EveryRowAccounted(lokiSet, actions, e);
    EveryRunStores(lokiSet, actions, n);
    hide Run; hide Count; hide Sum; hide CallRows; hide TaskRows; hide IsFor; hide OnCall; hide OnTask;
    hide CreatesStore;
    AllAtMost(st, e, n);
    hide CallsAtMost; hide TasksAtMost; hide AllFrom;
    CallsBounded(st.s.finished, e, n);
    TasksBounded(st.tasks, e, n);
  }

  lemma AllAtMost(st: Sys, e: Envelope, n: nat)
    requires AllFrom(st, Storing(n))
    ensures CallsAtMost(st.s.finished, e, n) && TasksAtMost(st.tasks, e, n)
  {
    hide CallFrom; hide Storing; hide Inserted; hide CallOf;
    forall c | c in st.s.finished ensures Inserted(c.pc) <= n { CallStores(c, n); }
    forall t | t in st.tasks && OnTask(e)(t) ensures Inserted(CallOf(t).value.pc) <= n {
      assert TaskFrom(t, Storing(n));
      CallStores(CallOf(t).value, n);
    }
  }

  // --- Per start ---

  // How many of these rows store e.
  function RowsFor(left: seq<QRow>, e: Envelope): nat {
    if left == [] then 0 else (if Decode(left[0].raw) == Some(e) then 1 else 0) + RowsFor(left[1..], e)
  }

  // How many calls on e a task may still make, the one it is in included.
  function Ahead(e: Envelope): Task -> nat {
    (t: Task) => match t
      case Ingest(_, phase) => if phase.Handling? && phase.call.env == e then 1 else 0
      case Replay(_, category, phase) =>
        match phase
        case Invalidating => if category == e.category then 1 else 0
        case Probing => if category == e.category then 1 else 0
        case Querying => if category == e.category then 1 else 0
        case Fetching(id) => if id == e.eventId then 1 else 0
        case Calling(_, call, left, _) => (if call.env == e then 1 else 0) + RowsFor(left, e)
        case Marking(_, left, _) => RowsFor(left, e)
        case Bumping(_, left, _) => RowsFor(left, e)
        case _ => 0
  }

  // An action that may lead to a call on e: a delivery of its message, or a replay of its category
  // or of its row.
  function StartsOn(st: Sys, a: Action, e: Envelope): nat {
    match a
    case Deliver(m) => if m < |st.messages| && st.messages[m] == Some(e) then 1 else 0
    case DeliverApproval(m) =>
      if m < |st.approvals| && st.approvals[m].category == e.category && e.category != "" then 1 else 0
    case HandCategory(category) => if category == e.category then 1 else 0
    case HandOne(id) => if id == e.eventId then 1 else 0
    case _ => 0
  }

  function Starts(lokiSet: bool, actions: seq<Action>, e: Envelope): nat {
    if actions == [] then 0 else
      var init := actions[..|actions| - 1];
      Starts(lokiSet, init, e) + StartsOn(Run(lokiSet, init), actions[|actions| - 1], e)
  }

  ghost predicate AttemptsStarted(st: Sys, e: Envelope, starts: nat) {
    Count(st.s.finished, OnCall(e)) + Sum(st.tasks, Ahead(e)) <= starts
  }

  lemma {:induction false} NoRowFor(rows: seq<QRow>, e: Envelope)
    requires forall k | 0 <= k < |rows| :: Decode(rows[k].raw) != Some(e)
    ensures RowsFor(rows, e) == 0
  {
    hide Decode;
    if rows != [] { NoRowFor(rows[1..], e); }
  }

  // Distinct rows store an event at most once.
  lemma {:induction false} OneRowFor(ms: Messages, rows: seq<QRow>, e: Envelope)
    requires AllStored(ms, rows) && DistinctRows(rows)
    ensures RowsFor(rows, e) <= 1
  {
    hide Decode; hide Encode; hide Published;
    if rows != [] {
      var rest := rows[1..];
      assert AllStored(ms, rest) && DistinctRows(rest);
      OneRowFor(ms, rest, e);
      if Decode(rows[0].raw) == Some(e) {
        assert Stored(ms, rows[0]);
        forall k | 0 <= k < |rest| ensures Decode(rest[k].raw) != Some(e) {
          assert Stored(ms, rest[k]) && rest[k] == rows[k + 1];
        }
        NoRowFor(rest, e);
      }
    }
  }

  // The pending rows of another category do not store e.
  lemma PendingFor(ms: Messages, rows: seq<QRow>, category: string, e: Envelope)
    requires TableSound(ms, rows)
    ensures RowsFor(PendingOf(rows, category), e) <= if category == e.category then 1 else 0
  {
    var pending := PendingOf(rows, category);
    PendingStored(ms, rows, category);
    PendingDistinct(rows, category);
    PendingMembers(rows, category);
    OneRowFor(ms, pending, e);
    DecodeEncode(e);
    hide Decode; hide Encode; hide PendingOf; hide RowsFor; hide CategoryText;
    if category != e.category {
      forall k | 0 <= k < |pending| ensures Decode(pending[k].raw) != Some(e) {
        assert pending[k] in pending && Stored(ms, pending[k]);
      }
      NoRowFor(pending, e);
    }
  }

  lemma NextRowAhead(e: Envelope, trigger: Trigger, category: string, left: seq<QRow>, n: nat)
    ensures Ahead(e)(Replay(trigger, category, NextRow(left, n))) == RowsFor(left, e)
  {
    hide Decode;
  }

  // A call that returns leaves its task with one call less ahead.
  lemma AfterStepAhead(e: Envelope, t: Task, c: Call)
    requires CallOf(t).Some? && c.env == CallOf(t).value.env
    ensures Ahead(e)(AfterStep(t, c)) + (if c.pc.Returned() && c.env == e then 1 else 0) <= Ahead(e)(t)
  {
    hide NextRow; hide RowsFor;
    if t.Replay? { NextRowAhead(e, t.trigger, t.category, t.phase.left, t.phase.replayed); }
  }

  lemma FetchedAhead(s: Shared, ms: Messages, id: string, e: Envelope)
    requires TableSound(ms, s.rows)
    ensures var i := IndexOf(s.rows, id); i < |s.rows| ==> RowsFor([s.rows[i]], e) <= if id == e.eventId then 1 else 0
  {
    hide Decode; hide Encode; hide Published;
    var i := IndexOf(s.rows, id);
    if i < |s.rows| {
      assert Stored(ms, s.rows[i]);
      assert RowsFor([s.rows[i]][1..], e) == 0;
    }
  }

  lemma IdleAhead(s: Shared, ms: Messages, t: Task, a: Answer, e: Envelope)
    requires CallOf(t).None? && TableSound(ms, s.rows)
    ensures Ahead(e)(TaskStep(s, t, a).1) <= Ahead(e)(t)
  {
    hide NextRow; hide Get; hide CallStep; hide PendingOf; hide RegistryClient.Answer; hide IndexOf; hide Mark;
    hide Bump; hide RowsFor; hide TableSound;
    if t.Replay? {
      match t.phase
      case Fetching(id) =>
        var i := IndexOf(s.rows, id);
        FetchedAhead(s, ms, id, e);
        if i < |s.rows| { NextRowAhead(e, t.trigger, t.category, [s.rows[i]], 0); }
      case Querying =>
        PendingFor(ms, s.rows, t.category, e);
        NextRowAhead(e, t.trigger, t.category, PendingOf(s.rows, t.category), 0);
      case Marking(row, left, n) => NextRowAhead(e, t.trigger, t.category, left, n + 1);
      case Bumping(row, left, n) => NextRowAhead(e, t.trigger, t.category, left, n);
      case _ =>
    }
  }

  lemma TaskAhead(s: Shared, ms: Messages, t: Task, a: Answer, e: Envelope)
    requires TaskFits(ms, t) && TableSound(ms, s.rows)
    ensures var (s', t') := TaskStep(s, t, a);
      Count(s'.finished, OnCall(e)) + Ahead(e)(t') <= Count(s.finished, OnCall(e)) + Ahead(e)(t)
  {
    NotReturned(ms, t);
    hide TaskStep; hide CallStep; hide AfterStep; hide Count; hide Ahead; hide TableSound; hide TaskFits; hide CallOf;
    if CallOf(t).Some? {
      var c := CallOf(t).value;
      var (s1, c1) := CallStep(s, c, a);
      CallingStep(s, t, a);
      CallCounts(s, c, a);
      AfterStepAhead(e, t, c1);
      if c1.pc.Returned() { CountAppend(s.finished, c1, OnCall(e)); } else { assert s.finished + [] == s.finished; }
    } else {
      IdleStep(s, t, a);
      IdleAhead(s, ms, t, a, e);
    }
  }

  lemma ActStarted(st: Sys, i: nat, a: Answer, e: Envelope, starts: nat)
    requires Sound(st) && AttemptsStarted(st, e, starts) && i < |st.tasks|
    ensures AttemptsStarted(ActOf(st, i, a), e, starts)
  {
    var t := st.tasks[i];
    assert TaskFits(st.messages, t) && TableSound(st.messages, st.s.rows);
    hide Sound; hide TaskStep; hide Count; hide Sum; hide Ahead; hide TaskFits; hide TableSound; hide OnCall;
    TaskAhead(st.s, st.messages, t, a, e);
    SumUpdate(st.tasks, i, TaskStep(st.s, t, a).1, Ahead(e));
  }

  lemma BeginStarted(st: Sys, a: Action, e: Envelope, starts: nat)
    requires AttemptsStarted(st, e, starts) && (a.Deliver? || a.DeliverApproval? || a.HandCategory? || a.HandOne?)
    ensures AttemptsStarted(Next(st, a), e, starts + StartsOn(st, a, e))
  {
    hide Count; hide Sum; hide OnCall;
    if Next(st, a) != st {
      var t := Next(st, a).tasks[|st.tasks|];
      assert Next(st, a) == StartTask(st, t) && Ahead(e)(t) <= StartsOn(st, a, e);
      SumAppend(st.tasks, t, Ahead(e));
    }
  }

  lemma NextStarted(st: Sys, a: Action, e: Envelope, starts: nat)
    requires Sound(st) && AttemptsStarted(st, e, starts)
    ensures AttemptsStarted(Next(st, a), e, starts + StartsOn(st, a, e))
  {
    hide Sound; hide Count; hide Sum; hide Ahead; hide OnCall; hide TaskStep; hide Apply; hide NewId;
    match a
    case Act(i, answer) => if i < |st.tasks| { ActStarted(st, i, answer, e, starts); }
    case PublishMessage(_) =>
    case Announce(_) =>
    case Create(_, _, _) =>
    case Delete(_) =>
    case _ => BeginStarted(st, a, e, starts);
  }

  // Every attempt on an event has been started by a delivery or a replay of its own.
  lemma {:induction false} EveryAttemptStarted(lokiSet: bool, actions: seq<Action>, e: Envelope)
    ensures AttemptsStarted(Run(lokiSet, actions), e, Starts(lokiSet, actions, e))
  {
    if actions != [] {
      var init := actions[..|actions| - 1];
      EveryAttemptStarted(lokiSet, init, e);
      EveryRunSound(lokiSet, init);
      hide Sound; hide AttemptsStarted; hide Next; hide StartsOn;
      NextStarted(Run(lokiSet, init), actions[|actions| - 1], e, Starts(lokiSet, init, e));
    }
  }

  lemma {:induction false} TasksAheadBound(tasks: seq<Task>, e: Envelope)
    ensures Count(tasks, OnTask(e)) <= Sum(tasks, Ahead(e))
  {
    if tasks != [] {
      TasksAheadBound(tasks[..|tasks| - 1], e);
      OnTaskIsAhead(tasks[|tasks| - 1], e);
    }
  }

  lemma OnTaskIsAhead(t: Task, e: Envelope)
    ensures OnTask(e)(t) ==> Ahead(e)(t) >= 1
  {
    hide RowsFor;
  }

  lemma StartsBound(st: Sys, e: Envelope, starts: nat)
    requires AttemptsStarted(st, e, starts)
    ensures Count(st.s.finished, OnCall(e)) + Count(st.tasks, OnTask(e)) <= starts
  {
    hide Count; hide Sum; hide OnCall; hide OnTask; hide Ahead;
    TasksAheadBound(st.tasks, e);
  }

  // Main result: an event is stored at most as many times as its message was delivered and replays
  // were started that cover it, times the rows that one routing of it leaves.
  lemma StoredAtMost(lokiSet: bool, actions: seq<Action>, e: Envelope, n: nat)
    requires CreatesStore(actions, n)
    ensures Count(Run(lokiSet, actions).s.tables.events, IsFor(e)) <= n * Starts(lokiSet, actions, e)
  {
    var st := Run(lokiSet, actions);
    RowsBounded(lokiSet, actions, e, n);
    EveryAttemptStarted(lokiSet, actions, e);
    hide *;
    StartsBound(st, e, Starts(lokiSet, actions, e));
    var attempts := Count(st.s.finished, OnCall(e)) + Count(st.tasks, OnTask(e));
    Scaled(Count(st.s.tables.events, IsFor(e)), n, attempts, Starts(lokiSet, actions, e));
  }

  lemma Scaled(rows: nat, n: nat, a: nat, b: nat)
    requires rows <= n * a && a <= b
    ensures rows <= n * b
  {
    assert n * b == n * a + n * (b - a);
  }

  // So with one destination in postgres, an event that is delivered or replayed once is stored at
  // most once.
  lemma StoredAtMostOnce(lokiSet: bool, actions: seq<Action>, e: Envelope)
    requires CreatesStore(actions, 1) && Starts(lokiSet, actions, e) <= 1
    ensures Count(Run(lokiSet, actions).s.tables.events, IsFor(e)) <= 1
  {
    StoredAtMost(lokiSet, actions, e, 1);
    hide Run; hide Starts; hide Count;
  }
}
