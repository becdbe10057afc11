/**
 No acknowledged message is lost: with any failures, redeliveries and interleavings, it was
 delivered to every destination under a schema that accepted it, or it is quarantined.
 */
module NoLoss {
  import opened Prelude
  import opened SchemaInference
  import opened Envelopes
  import opened RegistryTables
  import opened RegistryClient
  import opened QuarantineTable
  import opened Normalizer
  import opened NormalizerRuns
  import opened Origins
  import opened ServedSchemas

  ghost predicate InEvents(events: seq<EventRow>, e: Envelope) {
    exists i | 0 <= i < |events| :: events[i].envelope == e
  }

  // The destination has the envelope; tempo and mimir are deferred, and loki is skipped when no
  // push URL is set.
  ghost predicate Delivered(s: Shared, e: Envelope, dest: string) {
    && (ToPostgres(dest) ==> InEvents(s.tables.events, e))
    && (dest == "loki" && s.lokiSet ==> e in s.loki)
  }

  ghost predicate Reached(s: Shared, e: Envelope, dests: seq<string>, n: nat) {
    n <= |dests| && forall k | 0 <= k < n :: Delivered(s, e, dests[k])
  }

  ghost predicate Accepted(schema: RegistrySchema, e: Envelope) {
    Conforms(schema.document, e.payload)
  }

  // What is true of a call that has come to this point.
  ghost predicate Evidence(s: Shared, c: Call) {
    match c.pc
    case Start => true
    case Route(schema, next) => Accepted(schema, c.env) && Reached(s, c.env, Destinations(schema.routing), next)
      && next < |Destinations(schema.routing)|
    case Insert(schema, next, _, _) =>
      Accepted(schema, c.env) && Reached(s, c.env, Destinations(schema.routing), next)
        && next < |Destinations(schema.routing)|
        && ToPostgres(Destinations(schema.routing)[next])
    case Record(_) => true
    case Publish(_) => HasRow(s.rows, c.env.eventId)
    case Routed(schema) => Accepted(schema, c.env)
      && Reached(s, c.env, Destinations(schema.routing), |Destinations(schema.routing)|)
    case Quarantined(_) => HasRow(s.rows, c.env.eventId) && c.env in s.stream
    case Failed(dests, done) => Reached(s, c.env, dests, done)
  }

  // Nothing is taken away.
  ghost predicate Grows(s: Shared, s': Shared) {
    && s'.lokiSet == s.lokiSet
    && (forall e | InEvents(s.tables.events, e) :: InEvents(s'.tables.events, e))
    && (forall e | e in s.loki :: e in s'.loki)
    && (forall e | e in s.stream :: e in s'.stream)
    && (forall id | HasRow(s.rows, id) :: HasRow(s'.rows, id))
  }

  lemma EvidenceGrows(s: Shared, s': Shared, c: Call)
    requires Grows(s, s') && Evidence(s, c)
    ensures Evidence(s', c)
  {
    hide InEvents; hide HasRow; hide Accepted; hide Destinations; hide ToPostgres;
  }

  // --- One step of a call ---

  lemma RowsStay(rows: seq<QRow>, i: nat, row: QRow)
    requires i < |rows| && row.id == rows[i].id
    ensures forall id | HasRow(rows, id) :: HasRow(rows[i := row], id)
  {
    forall id | HasRow(rows, id) ensures HasRow(rows[i := row], id) {
      assert rows[i := row][IndexOf(rows, id)].id == id;
    }
  }

  lemma UpsertHasRow(rows: seq<QRow>, e: Envelope, reason: Reason)
    ensures HasRow(Upsert(rows, e, reason), e.eventId)
    ensures forall id | HasRow(rows, id) :: HasRow(Upsert(rows, e, reason), id)
  {
    hide Encode;
    var i, rows' := IndexOf(rows, e.eventId), Upsert(rows, e, reason);
    assert rows'[i].id == e.eventId;
    forall id | HasRow(rows, id) ensures HasRow(rows', id) {
      assert rows'[IndexOf(rows, id)].id == id;
    }
  }

  lemma MarkHasRow(rows: seq<QRow>, id: string)
    ensures forall other | HasRow(rows, other) :: HasRow(Mark(rows, id), other)
  {
    var i := IndexOf(rows, id);
    if i < |rows| { RowsStay(rows, i, rows[i].(status := Replayed)); }
  }

  lemma BumpHasRow(rows: seq<QRow>, id: string, reason: Reason)
    ensures forall other | HasRow(rows, other) :: HasRow(Bump(rows, id, reason), other)
  {
    var i := IndexOf(rows, id);
    if i < |rows| { RowsStay(rows, i, rows[i].(attempts := rows[i].attempts + 1, reason := reason)); }
  }

  lemma CallGrows(s: Shared, c: Call, a: Answer)
    requires !c.pc.Returned()
    ensures Grows(s, CallStep(s, c, a).0)
  {
    CallTouches(s, c, a);
    hide CallStep; hide Upsert; hide HasRow;
    if c.pc.Record? { UpsertHasRow(s.rows, c.env, c.pc.reason); }
    var s' := CallStep(s, c, a).0;
    forall e | InEvents(s.tables.events, e) ensures InEvents(s'.tables.events, e) {
      var i :| 0 <= i < |s.tables.events| && s.tables.events[i].envelope == e;
      assert s'.tables.events[i].envelope == e;
    }
  }

  // Destination `next` is settled: evidence for going on, and for stopping after it.
  lemma ProceedEvidence(s: Shared, c: Call, schema: RegistrySchema, next: nat)
    requires Accepted(schema, c.env) && Reached(s, c.env, Destinations(schema.routing), next)
    ensures var (s', c') := Proceed(s, c, schema, next); Evidence(s', c')
  {
    hide InEvents; hide HasRow; hide Accepted; hide Destinations; hide ToPostgres;
  }

  lemma OneMoreReached(s: Shared, s': Shared, e: Envelope, dests: seq<string>, next: nat)
    requires Reached(s, e, dests, next) && Grows(s, s') && next < |dests| && Delivered(s', e, dests[next])
    ensures Reached(s', e, dests, next + 1)
  {
    hide InEvents; hide HasRow; hide ToPostgres;
  }

  lemma SettleEvidence(s: Shared, s': Shared, c: Call, schema: RegistrySchema, next: nat, outcome: Outcome)
    requires var dests := Destinations(schema.routing);
      && Accepted(schema, c.env) && Reached(s, c.env, dests, next) && next < |dests|
      && Grows(s, s') && (outcome.TookEffect() ==> Delivered(s', c.env, dests[next]))
    ensures var (s2, c') := Settle(s', c, schema, next, outcome); Evidence(s2, c')
  {
    var dests := Destinations(schema.routing);
    if outcome.TookEffect() { OneMoreReached(s, s', c.env, dests, next); }
    if outcome.Ok? { ProceedEvidence(s', c, schema, next + 1); }
    hide InEvents; hide HasRow; hide Accepted; hide Destinations; hide ToPostgres; hide Proceed;
    assert forall k | 0 <= k < next :: Delivered(s', c.env, dests[k]);
  }

  lemma GrowsRefl(s: Shared)
    ensures Grows(s, s)
  {
  }

  lemma RouteEvidence(s: Shared, c: Call, a: Answer)
    requires c.pc.Route? && Evidence(s, c)
    ensures var (s', c') := CallStep(s, c, a); Evidence(s', c')
  {
    var schema, next := c.pc.schema, c.pc.next;
    var dests := Destinations(schema.routing);
    hide LookUp; hide InsertRow; hide Upsert; hide Accepted; hide HasRow; hide InEvents; hide Destinations;
    hide ResolveForInsert; hide Get;
    GrowsRefl(s);
    if ToPostgres(dests[next]) {
    } else if dests[next] == "loki" && s.lokiSet {
      var s1 := if a.outcome.TookEffect() then s.(loki := s.loki + [c.env]) else s;
      SettleEvidence(s, s1, c, schema, next, a.outcome);
    } else {
      OneMoreReached(s, s, c.env, dests, next);
      ProceedEvidence(s, c, schema, next + 1);
    }
  }

  lemma InsertEvidence(s: Shared, c: Call, a: Answer)
    requires c.pc.Insert? && Evidence(s, c)
    ensures var (s', c') := CallStep(s, c, a); Evidence(s', c')
  {
    var Insert(schema, next, categoryId, schemaId) := c.pc;
    var inserted := if a.outcome.TookEffect() then InsertEvent(s.tables, categoryId, schemaId, c.env) else None;
    if inserted.Some? {
      var s1 := s.(tables := inserted.value);
      assert s1.tables.events[|s.tables.events|].envelope == c.env;
      assert InEvents(s1.tables.events, c.env);
      CallGrows(s, c, a);
      InsertGrows(s, categoryId, schemaId, c.env);
      hide InEvents;
      SettleEvidence(s, s1, c, schema, next, a.outcome);
    }
    hide LookUp; hide RouteNext; hide Upsert; hide Accepted; hide HasRow; hide InEvents; hide Destinations;
    hide RegistryTables.InsertEvent; hide Settle; hide Reached;
  }

  lemma InsertGrows(s: Shared, categoryId: nat, schemaId: nat, e: Envelope)
    ensures var r := InsertEvent(s.tables, categoryId, schemaId, e); r.Some? ==> Grows(s, s.(tables := r.value))
  {
    var r := InsertEvent(s.tables, categoryId, schemaId, e);
    if r.Some? {
      hide HasRow;
      forall f | InEvents(s.tables.events, f) ensures InEvents(r.value.events, f) {
        var i :| 0 <= i < |s.tables.events| && s.tables.events[i].envelope == f;
        assert r.value.events[i].envelope == f;
      }
    }
  }

  lemma StartEvidence(s: Shared, c: Call, a: Answer)
    requires c.pc.Start?
    ensures var (s', c') := CallStep(s, c, a); Evidence(s', c')
  {
    var r := Get(s.cache, c.env.category, a.now, RegistryClient.Answer(s.tables, c.env.category, a.fault)).1;
    if r.Found? { ValidateIff(r.schema.document, c.env.payload); }
    hide Conforms; hide Validate; hide Get; hide RegistryClient.Answer; hide RouteNext; hide InsertRow;
    hide Upsert; hide HasRow; hide InEvents; hide Destinations; hide Accepts; hide ToPostgres;
  }

  lemma QuarantineEvidence(s: Shared, c: Call, a: Answer)
    requires (c.pc.Record? || c.pc.Publish?) && Evidence(s, c)
    ensures var (s', c') := CallStep(s, c, a); Evidence(s', c')
  {
    if c.pc.Record? { UpsertHasRow(s.rows, c.env, c.pc.reason); }
    hide LookUp; hide RouteNext; hide InsertRow; hide Upsert; hide HasRow; hide InEvents; hide Destinations;
    hide ToPostgres;
  }

  lemma CallEvidence(s: Shared, c: Call, a: Answer)
    requires !c.pc.Returned() && Evidence(s, c)
    ensures var (s', c') := CallStep(s, c, a); Evidence(s', c')
  {
    match c.pc
    case Start => StartEvidence(s, c, a);
    case Route(_, _) => RouteEvidence(s, c, a);
    case Insert(_, _, _, _) => InsertEvidence(s, c, a);
    case Record(_) => QuarantineEvidence(s, c, a);
    case Publish(_) => QuarantineEvidence(s, c, a);
  }

  // --- One step of a task ---

  ghost predicate Handled(finished: seq<Call>, e: Envelope) {
    exists i | 0 <= i < |finished| :: finished[i].env == e && (finished[i].pc.Routed? || finished[i].pc.Quarantined?)
  }

  ghost predicate RoutedUnder(finished: seq<Call>, id: string) {
    exists i | 0 <= i < |finished| :: finished[i].env.eventId == id && finished[i].pc.Routed?
  }

  // A message that may be acknowledged.
  ghost predicate Done(ms: Messages, finished: seq<Call>, m: nat) {
    m < |ms| && (ms[m].Some? ==> Handled(finished, ms[m].value))
  }

  ghost predicate TaskBacked(s: Shared, ms: Messages, t: Task) {
    && (CallOf(t).Some? ==> Evidence(s, CallOf(t).value))
    && (t.Ingest? && t.ingest == Settling(true) ==> Done(ms, s.finished, t.message))
    && (t.Replay? && t.phase.Marking? ==> RoutedUnder(s.finished, t.phase.row.id))
  }

  ghost predicate StateBacked(s: Shared, ms: Messages) {
    && (forall i | 0 <= i < |s.finished| :: Evidence(s, s.finished[i]))
    && (forall m | m in s.acked :: Done(ms, s.finished, m))
    && (forall i | 0 <= i < |s.rows| && s.rows[i].status == Replayed :: RoutedUnder(s.finished, s.rows[i].id))
  }

  lemma MoreFinished(finished: seq<Call>, c: Call)
    ensures forall e | Handled(finished, e) :: Handled(finished + [c], e)
    ensures forall id | RoutedUnder(finished, id) :: RoutedUnder(finished + [c], id)
    ensures c.pc.Routed? || c.pc.Quarantined? ==> Handled(finished + [c], c.env)
    ensures c.pc.Routed? ==> RoutedUnder(finished + [c], c.env.eventId)
  {
    var all := finished + [c];
    assert all[|finished|] == c;
    forall e | Handled(finished, e) ensures Handled(all, e) {
      var i :| 0 <= i < |finished| && finished[i].env == e && (finished[i].pc.Routed? || finished[i].pc.Quarantined?);
      assert all[i] == finished[i];
    }
    forall id | RoutedUnder(finished, id) ensures RoutedUnder(all, id) {
      var i :| 0 <= i < |finished| && finished[i].env.eventId == id && finished[i].pc.Routed?;
      assert all[i] == finished[i];
    }
  }

  // The table after a step: rows keep their ids, and are marked only for a reason.
  ghost predicate Marked(rows: seq<QRow>, rows': seq<QRow>, finished: seq<Call>) {
    && |rows| <= |rows'|
    && (forall i | 0 <= i < |rows| :: rows'[i].id == rows[i].id && rows'[i].raw == rows[i].raw
          && (rows'[i].status == rows[i].status
             || (rows[i].status == PendingReplay && RoutedUnder(finished, rows[i].id))))
    && (forall i | |rows| <= i < |rows'| :: rows'[i].status == PendingReplay)
  }

  lemma UpsertMarked(rows: seq<QRow>, e: Envelope, reason: Reason, finished: seq<Call>)
    ensures Marked(rows, Upsert(rows, e, reason), finished)
  {
    hide Encode; hide RoutedUnder;
  }

  lemma MarkMarked(rows: seq<QRow>, id: string, finished: seq<Call>)
    requires RoutedUnder(finished, id)
    ensures Marked(rows, Mark(rows, id), finished)
  {
    hide RoutedUnder;
  }

  // The next row starts a new call, or is none.
  lemma NextRowBacked(s: Shared, ms: Messages, trigger: Trigger, category: string, left: seq<QRow>, n: nat)
    ensures TaskBacked(s, ms, Replay(trigger, category, NextRow(left, n)))
  {
    hide Decode;
  }

  lemma AfterStepBacked(s: Shared, ms: Messages, t: Task, c: Call)
    requires CallOf(t).Some? && TaskFits(ms, t) && c.env == CallOf(t).value.env && Evidence(s, c)
    requires c.pc.Routed? || c.pc.Quarantined? ==> Handled(s.finished, c.env)
    requires c.pc.Routed? ==> RoutedUnder(s.finished, c.env.eventId)
    ensures TaskBacked(s, ms, AfterStep(t, c))
  {
    hide Decode; hide Encode; hide Handled; hide RoutedUnder; hide Evidence; hide NextRow; hide AllStored;
    hide Published;
    if t.Replay? { NextRowBacked(s, ms, t.trigger, t.category, t.phase.left, t.phase.replayed); }
    hide TaskBacked;
    if t.Ingest? {
      assert TaskBacked(s, ms, AfterStep(t, c)) by { IngestBacked(s, ms, t.message, t.ingest, c); }
    } else if !c.pc.Quarantined? {
      assert Stores(ms, t.phase.row, c.env);
      ReplayBacked(s, ms, t, c);
    }
  }

  lemma IngestBacked(s: Shared, ms: Messages, m: nat, phase: IngestPhase, c: Call)
    requires phase.Handling? && TaskFits(ms, Ingest(m, phase)) && c.env == phase.call.env && Evidence(s, c)
    requires c.pc.Routed? || c.pc.Quarantined? ==> Handled(s.finished, c.env)
    ensures TaskBacked(s, ms, AfterStep(Ingest(m, phase), c))
  {
    hide Handled; hide RoutedUnder; hide Evidence;
  }

  lemma ReplayBacked(s: Shared, ms: Messages, t: Task, c: Call)
    requires t.Replay? && t.phase.Calling? && t.phase.row.id == c.env.eventId && Evidence(s, c) && !c.pc.Quarantined?
    requires c.pc.Routed? ==> RoutedUnder(s.finished, c.env.eventId)
    ensures TaskBacked(s, ms, AfterStep(t, c))
  {
    hide Handled; hide RoutedUnder; hide Evidence;
  }

  lemma CallingBacked(s: Shared, ms: Messages, t: Task, a: Answer)
    requires CallOf(t).Some? && TaskFits(ms, t) && TaskBacked(s, ms, t)
    ensures var (s', t') := TaskStep(s, t, a);
      var (_, c1) := CallStep(s, CallOf(t).value, a);
      && Grows(s, s') && TaskBacked(s', ms, t')
      && s'.finished == s.finished + (if c1.pc.Returned() then [c1] else [])
      && Evidence(s', c1) && s'.acked == s.acked && Marked(s.rows, s'.rows, s'.finished)
  {
    var c := CallOf(t).value;
    var (s1, c1) := CallStep(s, c, a);
    var s' := TaskStep(s, t, a).0;
    CallingStep(s, t, a);
    CallCounts(s, c, a);
    CallTouches(s, c, a);
    CallEvidence(s, c, a);
    CallGrows(s, c, a);
    MoreFinished(s.finished, c1);
    hide CallStep; hide TaskStep; hide TaskFits; hide Handled; hide RoutedUnder; hide HasRow; hide InEvents;
    hide TaskBacked; hide AfterStep; hide Upsert;
    assert Grows(s1, s') && Grows(s, s');
    EvidenceGrows(s1, s', c1);
    hide Evidence; hide Grows;
    AfterStepBacked(s', ms, t, c1);
    if c.pc.Record? { UpsertMarked(s.rows, c.env, c.pc.reason, s'.finished); }
  }

  lemma IdleBacked(s: Shared, ms: Messages, t: Task, a: Answer)
    requires CallOf(t).None? && TaskFits(ms, t) && TaskBacked(s, ms, t)
    ensures var (s', t') := TaskStep(s, t, a);
      && Grows(s, s') && TaskBacked(s', ms, t') && s'.finished == s.finished
      && (forall m | m in s'.acked && m !in s.acked :: Done(ms, s.finished, m))
      && Marked(s.rows, s'.rows, s.finished)
  {
    IdleGrows(s, t, a);
    IdleStep(s, t, a);
    if t.Ingest? {
      IdleIngestBacked(s, ms, t, a);
    } else {
      IdleReplayBacked(s, ms, t, a);
      hide TaskBacked;
      if t.phase.Marking? { MarkMarked(s.rows, t.phase.row.id, s.finished); }
      ReplayRowsStay(s, t, a);
      hide TaskStep;
    }
    hide TaskStep; hide TaskBacked; hide Done; hide Grows;
  }

  lemma ReplayRowsStay(s: Shared, t: Task, a: Answer)
    requires t.Replay? && CallOf(t).None? && !t.phase.Bumping?
    ensures var s' := TaskStep(s, t, a).0;
      && s'.acked == s.acked
      && (s'.rows == s.rows || (t.phase.Marking? && s'.rows == Mark(s.rows, t.phase.row.id)))
  {
    hide NextRow; hide Get; hide CallStep; hide PendingOf; hide RegistryClient.Answer; hide IndexOf; hide Mark;
    hide Bump;
  }

  lemma IdleIngestBacked(s: Shared, ms: Messages, t: Task, a: Answer)
    requires t.Ingest? && CallOf(t).None? && TaskFits(ms, t) && TaskBacked(s, ms, t)
    ensures var (s', t') := TaskStep(s, t, a);
      && TaskBacked(s', ms, t') && s'.rows == s.rows
      && (forall m | m in s'.acked && m !in s.acked :: Done(ms, s.finished, m))
  {
    hide Handled; hide CallStep;
  }

  lemma IdleReplayBacked(s: Shared, ms: Messages, t: Task, a: Answer)
    requires t.Replay? && CallOf(t).None? && TaskFits(ms, t)
    ensures var (s', t') := TaskStep(s, t, a); TaskBacked(s', ms, t')
  {
    var s' := TaskStep(s, t, a).0;
    hide NextRow; hide Get; hide CallStep; hide PendingOf; hide RegistryClient.Answer; hide Handled;
    hide RoutedUnder; hide IndexOf; hide Evidence; hide Mark;
    match t.phase
    case Fetching(id) =>
      if IndexOf(s.rows, id) < |s.rows| {
        NextRowBacked(s, ms, t.trigger, t.category, [s.rows[IndexOf(s.rows, id)]], 0);
      }
    case Querying => NextRowBacked(s, ms, t.trigger, t.category, PendingOf(s.rows, t.category), 0);
    case Marking(row, left, n) => NextRowBacked(s', ms, t.trigger, t.category, left, n + 1);
    case _ =>
  }

  lemma IdleGrows(s: Shared, t: Task, a: Answer)
    requires CallOf(t).None?
    ensures Grows(s, TaskStep(s, t, a).0)
  {
    IdleStep(s, t, a);
    if t.Replay? && t.phase.Marking? { MarkHasRow(s.rows, t.phase.row.id); }
    if t.Replay? && t.phase.Bumping? { BumpHasRow(s.rows, t.phase.row.id, UnparseableStored); }
    hide NextRow; hide Get; hide CallStep; hide PendingOf; hide RegistryClient.Answer; hide InEvents;
    hide HasRow; hide IndexOf; hide Mark; hide Bump;
  }

  // --- Runs ---

  ghost predicate Backed(st: Sys) {
    && Sound(st) && StateBacked(st.s, st.messages)
    && forall i | 0 <= i < |st.tasks| :: TaskBacked(st.s, st.messages, st.tasks[i])
  }

  lemma StateBackedStep(s: Shared, s': Shared, ms: Messages)
    requires StateBacked(s, ms) && Grows(s, s') && Marked(s.rows, s'.rows, s'.finished)
    requires s'.finished == s.finished
      || (|s'.finished| == |s.finished| + 1 && s'.finished == s.finished + [s'.finished[|s.finished|]]
          && Evidence(s', s'.finished[|s.finished|]))
    requires forall m | m in s'.acked && m !in s.acked :: Done(ms, s'.finished, m)
    ensures StateBacked(s', ms)
  {
    if s'.finished != s.finished { MoreFinished(s.finished, s'.finished[|s.finished|]); }
    hide Handled; hide RoutedUnder; hide Grows;
    forall i | 0 <= i < |s.finished| ensures Evidence(s', s'.finished[i]) {
      assert s'.finished[i] == s.finished[i];
      EvidenceGrows(s, s', s.finished[i]);
    }
  }

  lemma OtherTaskBacked(s: Shared, s': Shared, ms: Messages, t: Task)
    requires TaskBacked(s, ms, t) && Grows(s, s')
    requires s'.finished == s.finished
      || (|s'.finished| == |s.finished| + 1 && s'.finished == s.finished + [s'.finished[|s.finished|]])
    ensures TaskBacked(s', ms, t)
  {
    if s'.finished != s.finished { MoreFinished(s.finished, s'.finished[|s.finished|]); }
    if CallOf(t).Some? { EvidenceGrows(s, s', CallOf(t).value); }
    hide Handled; hide RoutedUnder; hide Grows; hide Evidence;
  }

  lemma ActBacked(st: Sys, i: nat, a: Answer)
    requires Backed(st) && i < |st.tasks|
    ensures Backed(ActOf(st, i, a)) && Marked(st.s.rows, ActOf(st, i, a).s.rows, ActOf(st, i, a).s.finished)
  {
    var t := st.tasks[i];
    ActSound(st, i, a);
    assert TaskFits(st.messages, t) && TaskBacked(st.s, st.messages, t);
    if CallOf(t).Some? { CallingBacked(st.s, st.messages, t, a); } else { IdleBacked(st.s, st.messages, t, a); }
    var s' := TaskStep(st.s, t, a).0;
    hide TaskStep; hide TaskFits; hide TaskBacked; hide CallStep; hide StateBacked; hide Grows; hide Marked;
    hide Sound; hide Done; hide Evidence;
    StateBackedStep(st.s, s', st.messages);
    var tasks' := st.tasks[i := TaskStep(st.s, t, a).1];
    forall j | 0 <= j < |tasks'| ensures TaskBacked(s', st.messages, tasks'[j]) {
      if j != i { OtherTaskBacked(st.s, s', st.messages, st.tasks[j]); }
    }
  }

  lemma PublishBacked(st: Sys, content: Option<Envelope>)
    requires Backed(st)
    ensures Backed(Next(st, PublishMessage(content)))
  {
    var st' := Next(st, PublishMessage(content));
    PublishSound(st, content);
    PublishAppends(st, content);
    hide Next; hide Sound;
    if st' != st {
      hide Evidence; hide Handled; hide RoutedUnder;
      forall m | Done(st.messages, st.s.finished, m) ensures Done(st'.messages, st'.s.finished, m) {}
    }
  }

  // Creating and deleting categories leaves the events table alone.
  lemma TablesGrow(s: Shared, op: Op)
    requires !op.Insert?
    ensures Grows(s, s.(tables := Apply(s.tables, op)))
  {
    hide HasRow;
    match op
    case Create(name, document, routing) => CreateVersionCategories(s.tables, name, document, routing);
    case Delete(_) =>
  }

  lemma TablesBacked(st: Sys, op: Op)
    requires Backed(st) && !op.Insert?
    ensures Backed(st.(s := st.s.(tables := Apply(st.s.tables, op))))
  {
    var s' := st.s.(tables := Apply(st.s.tables, op));
    TablesGrow(st.s, op);
    hide Grows; hide Apply; hide Evidence; hide Stored; hide TaskFits; hide DistinctRows; hide Done; hide RoutedUnder;
    assert Marked(st.s.rows, s'.rows, s'.finished);
    StateBackedStep(st.s, s', st.messages);
    hide TaskBacked; hide StateBacked;
    forall i | 0 <= i < |st.tasks| ensures TaskBacked(s', st.messages, st.tasks[i]) {
      OtherTaskBacked(st.s, s', st.messages, st.tasks[i]);
    }
  }

  lemma StartBacked(st: Sys, t: Task)
    requires Backed(st) && TaskFits(st.messages, t) && TaskBacked(st.s, st.messages, t)
    ensures Backed(StartTask(st, t))
  {
    hide TaskFits; hide TaskBacked; hide Stored; hide DistinctRows;
  }

  lemma NextBacked(st: Sys, a: Action)
    requires Backed(st)
    ensures Backed(Next(st, a)) && Marked(st.s.rows, Next(st, a).s.rows, Next(st, a).s.finished)
  {
    match a
    case PublishMessage(content) => PublishBacked(st, content);
    case Create(name, document, routing) => TablesBacked(st, Op.Create(name, document, routing));
    case Delete(name) => TablesBacked(st, Op.Delete(name));
    case Act(i, answer) => if i < |st.tasks| { ActBacked(st, i, answer); }
    case Announce(_) => hide TaskBacked; hide Stored; hide TaskFits; hide StateBacked;
    case _ =>
      assert forall t :: StartTask(st, t).s == st.s;
      StartsBacked(st, a);
  }

  lemma StartsBacked(st: Sys, a: Action)
    requires Backed(st) && (a.Deliver? || a.DeliverApproval? || a.HandCategory? || a.HandOne?)
    ensures Backed(Next(st, a)) && Next(st, a).s == st.s
  {
    if Next(st, a) != st {
      var t := Next(st, a).tasks[|st.tasks|];
      assert Next(st, a) == StartTask(st, t) && TaskFits(st.messages, t) && TaskBacked(st.s, st.messages, t);
      StartBacked(st, t);
    }
  }

  lemma {:induction false} EveryRunBacked(lokiSet: bool, actions: seq<Action>)
    ensures Backed(Run(lokiSet, actions))
  {
    if actions != [] {
      EveryRunBacked(lokiSet, actions[..|actions| - 1]);
      NextBacked(Run(lokiSet, actions[..|actions| - 1]), actions[|actions| - 1]);
    }
  }

  // The envelope conforms to the schema, and each destination that the routing names has it: loki
  // if its push URL is set, tempo and mimir are deferred, and every other name is postgres. A
  // routing without targets names its one target, or else postgres.
  ghost predicate DeliveredUnder(s: Shared, e: Envelope, schema: RegistrySchema) {
    && Conforms(schema.document, e.payload)
    && forall dest | Names(schema.routing, dest) ::
         && (dest == "loki" && s.lokiSet ==> e in s.loki)
         && (dest != "loki" && dest != "tempo" && dest != "mimir" ==>
               exists i | 0 <= i < |s.tables.events| :: s.tables.events[i].envelope == e)
  }

  predicate Names(routing: Routing, dest: string) {
    if routing.targets != [] then dest in routing.targets
    else dest == if routing.target != "" then routing.target else "postgres"
  }

  lemma DestinationsAreNamed(routing: Routing)
    ensures forall dest :: dest in Destinations(routing) <==> Names(routing, dest)
  {
  }

  lemma DeliveredMeans(s: Shared, e: Envelope, schema: RegistrySchema)
    requires Accepted(schema, e)
    requires Reached(s, e, Destinations(schema.routing), |Destinations(schema.routing)|)
    ensures DeliveredUnder(s, e, schema)
  {
    DestinationsAreNamed(schema.routing);
    hide Destinations; hide Names; hide Conforms;
    forall dest | Names(schema.routing, dest)
      ensures dest == "loki" && s.lokiSet ==> e in s.loki
      ensures dest != "loki" && dest != "tempo" && dest != "mimir" ==>
        exists i | 0 <= i < |s.tables.events| :: s.tables.events[i].envelope == e
    {
      var k :| 0 <= k < |Destinations(schema.routing)| && Destinations(schema.routing)[k] == dest;
      assert Delivered(s, e, dest);
    }
  }

  // A call on the envelope returned routed, under a schema that the registry served for its
  // category in this run, and that schema's destinations have it.
  ghost predicate RoutedAndDelivered(lokiSet: bool, actions: seq<Action>, e: Envelope) {
    var s := Run(lokiSet, actions).s;
    exists k | 0 <= k < |s.finished| && s.finished[k].env == e && s.finished[k].pc.Routed? ::
      DeliveredUnder(s, e, s.finished[k].pc.schema) && ServedIn(lokiSet, actions, e.category, s.finished[k].pc.schema)
  }

  // A row under its event id holds the envelope, and the quarantine stream has a copy.
  ghost predicate InQuarantine(s: Shared, e: Envelope) {
    && e in s.stream
    && var i := IndexOf(s.rows, e.eventId); i < |s.rows| && Decode(s.rows[i].raw) == Some(e)
  }

  // Main result: no acknowledged message is lost.
  lemma NoLoss(lokiSet: bool, actions: seq<Action>, m: nat)
    requires m in Run(lokiSet, actions).s.acked
    ensures var st := Run(lokiSet, actions);
      m < |st.messages| &&
      match st.messages[m]
      case None => true
      case Some(e) => RoutedAndDelivered(lokiSet, actions, e) || InQuarantine(st.s, e)
  {
    var st := Run(lokiSet, actions);
    EveryRunBacked(lokiSet, actions);
    EveryRunServed(lokiSet, actions);
    hide Run;
    assert Done(st.messages, st.s.finished, m);
    if st.messages[m].Some? {
      var e := st.messages[m].value;
      var k :| 0 <= k < |st.s.finished| && st.s.finished[k].env == e
        && (st.s.finished[k].pc.Routed? || st.s.finished[k].pc.Quarantined?);
      var c := st.s.finished[k];
      assert Evidence(st.s, c) && CallFrom(c, ServedSoFar(lokiSet, actions)) && Published(st.messages, e);
      hide Delivered; hide Decode; hide Encode; hide Done; hide Accepted; hide AllFrom; hide ServedIn;
      if c.pc.Routed? {
        DeliveredMeans(st.s, e, c.pc.schema);
      } else {
        var i := IndexOf(st.s.rows, e.eventId);
        assert Stored(st.messages, st.s.rows[i]);
        SameEnvelope(st.messages, e, Decode(st.s.rows[i].raw).value);
      }
    }
  }

  // The rows of a later state: never gone, never rewritten, and marked only when the envelope
  // they store has been routed.
  ghost predicate RowsOnlyMark(rows: seq<QRow>, rows': seq<QRow>, finished: seq<Call>) {
    && |rows| <= |rows'|
    && forall i | 0 <= i < |rows| :: rows'[i].id == rows[i].id && rows'[i].raw == rows[i].raw
         && (rows[i].status == Replayed ==> rows'[i].status == Replayed)
         && (rows'[i].status != rows[i].status ==> RoutedUnder(finished, rows[i].id))
  }

  // Main result: a row's status only ever moves from pending to replayed, and only after its
  // envelope was routed.
  lemma {:induction false} StatusOnlyMoves(lokiSet: bool, actions: seq<Action>, n: nat)
    requires n <= |actions|
    ensures RowsOnlyMark(Run(lokiSet, actions[..n]).s.rows, Run(lokiSet, actions).s.rows,
      Run(lokiSet, actions).s.finished)
    ensures var s := Run(lokiSet, actions).s;
      forall i | 0 <= i < |s.rows| && s.rows[i].status == Replayed :: RoutedUnder(s.finished, s.rows[i].id)
  {
    EveryRunBacked(lokiSet, actions);
    if n == |actions| {
      assert actions[..n] == actions;
    } else {
      var init := actions[..|actions| - 1];
      assert init[..n] == actions[..n];
      StatusOnlyMoves(lokiSet, init, n);
      EveryRunBacked(lokiSet, init);
      NextBacked(Run(lokiSet, init), actions[|actions| - 1]);
      FinishedGrows(Run(lokiSet, init), actions[|actions| - 1]);
      hide RoutedUnder; hide Next; hide Backed;
    }
  }

  lemma FinishedGrows(st: Sys, a: Action)
    requires Sound(st)
    ensures forall id | RoutedUnder(st.s.finished, id) :: RoutedUnder(Next(st, a).s.finished, id)
  {
    hide RoutedUnder; hide TaskStep;
    if a.Act? && a.task < |st.tasks| {
      assert TaskFits(st.messages, st.tasks[a.task]);
      hide TaskFits; hide Stored;
      TaskFinishedGrows(st.s, st.messages, st.tasks[a.task], a.answer);
    }
  }

  lemma TaskFinishedGrows(s: Shared, ms: Messages, t: Task, a: Answer)
    requires TaskFits(ms, t)
    ensures forall id | RoutedUnder(s.finished, id) :: RoutedUnder(TaskStep(s, t, a).0.finished, id)
  {
    hide CallStep; hide TaskStep; hide RoutedUnder; hide AfterStep; hide AllStored; hide Stored; hide Stores;
    if CallOf(t).Some? {
      CallingStep(s, t, a);
      CallCounts(s, CallOf(t).value, a);
      var (s1, c1) := CallStep(s, CallOf(t).value, a);
      MoreFinished(s.finished, c1);
      assert TaskStep(s, t, a).0.finished == s1.finished == if c1.pc.Returned() then s.finished + [c1] else s.finished;
    } else {
      IdleStep(s, t, a);
    }
  }
}
