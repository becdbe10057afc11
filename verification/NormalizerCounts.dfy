/**
 What the counters, the event rows and the attempts of a run add up to
 (internal/normalizer/worker.go:43-50, internal/normalizer/store.go:85-101).
 */
module NormalizerCounts {
  import opened Prelude
  import opened Envelopes
  import opened RegistryTables
  import opened RegistryClient
  import opened QuarantineTable
  import opened Normalizer
  import opened NormalizerRuns
  import opened Origins
  import opened NoLoss

  // --- Counters ---

  predicate IsRouted(c: Call) { c.pc.Routed? }
  predicate IsQuarantined(c: Call) { c.pc.Quarantined? }
  predicate IsFailed(c: Call) { c.pc.Failed? }
  // A call that has been counted and not returned yet.
  predicate MidCall(t: Task) { CallOf(t).Some? && !CallOf(t).value.pc.Start? }

  ghost predicate Counted(st: Sys) {
    && st.s.counts.processed == Count(st.s.finished, IsRouted) + Count(st.s.finished, IsQuarantined)
       + Count(st.s.finished, IsFailed)
                                + Count(st.tasks, MidCall)
    && st.s.counts.routed == Count(st.s.finished, IsRouted)
    && st.s.counts.quarantined == Count(st.s.finished, IsQuarantined) + st.s.unparseable
    && st.s.counts.replayed <= st.s.counts.routed
  }

  lemma NextRowNotMid(trigger: Trigger, category: string, left: seq<QRow>, n: nat)
    ensures !MidCall(Replay(trigger, category, NextRow(left, n)))
  {
    hide Decode;
  }

  lemma AfterStepMid(t: Task, c: Call)
    requires CallOf(t).Some? && !c.pc.Start?
    ensures MidCall(AfterStep(t, c)) <==> !c.pc.Returned()
  {
    hide NextRow;
    if t.Replay? { NextRowNotMid(t.trigger, t.category, t.phase.left, t.phase.replayed); }
  }

  lemma CallingCounts(s: Shared, t: Task, a: Answer)
    requires CallOf(t).Some? && !CallOf(t).value.pc.Returned()
    ensures var (s', t') := TaskStep(s, t, a);
      var (_, c1) := CallStep(s, CallOf(t).value, a);
      && s'.finished == s.finished + (if c1.pc.Returned() then [c1] else [])
      && s'.counts.processed == s.counts.processed + (if MidCall(t) then 0 else 1)
      && (MidCall(t') <==> !c1.pc.Returned())
      && s'.counts.routed == s.counts.routed + (if c1.pc.Routed? then 1 else 0)
      && s'.counts.quarantined == s.counts.quarantined + (if c1.pc.Quarantined? then 1 else 0)
      && s.counts.replayed <= s'.counts.replayed <= s.counts.replayed + (if c1.pc.Routed? then 1 else 0)
      && s'.unparseable == s.unparseable
  {
    CallingStep(s, t, a);
    CallCounts(s, CallOf(t).value, a);
    AfterStepMid(t, CallStep(s, CallOf(t).value, a).1);
    hide CallStep; hide TaskStep; hide AfterStep;
  }

  lemma IdleCounts(s: Shared, t: Task, a: Answer)
    requires CallOf(t).None?
    ensures var (s', t') := TaskStep(s, t, a);
      && !MidCall(t') && s'.finished == s.finished
      && s'.counts == s.counts.(quarantined := s'.counts.quarantined)
      && s'.counts.quarantined - s.counts.quarantined == s'.unparseable - s.unparseable
  {
    IdleStep(s, t, a);
    hide NextRow; hide Get; hide CallStep; hide PendingOf; hide RegistryClient.Answer; hide IndexOf; hide Mark;
    hide Bump;
    if t.Replay? {
      match t.phase
      case Fetching(id) =>
        if IndexOf(s.rows, id) < |s.rows| {
          NextRowNotMid(t.trigger, t.category, [s.rows[IndexOf(s.rows, id)]], 0);
        }
      case Querying => NextRowNotMid(t.trigger, t.category, PendingOf(s.rows, t.category), 0);
      case Marking(row, left, n) => NextRowNotMid(t.trigger, t.category, left, n + 1);
      case Bumping(row, left, n) => NextRowNotMid(t.trigger, t.category, left, n);
      case _ =>
    }
  }

  lemma ActCounted(st: Sys, i: nat, a: Answer)
    requires Sound(st) && Counted(st) && i < |st.tasks|
    ensures Counted(ActOf(st, i, a))
  {
    hide TaskStep; hide CallStep; hide Count; hide MidCall; hide AllStored; hide Stored; hide Origins.Stores;
    var t := st.tasks[i];
    assert TaskFits(st.messages, t);
    CountUpdate(st.tasks, i, TaskStep(st.s, t, a).1, MidCall);
    if CallOf(t).Some? {
      CallingCounts(st.s, t, a);
      hide Sound; hide TaskFits; hide CallOf;
      FinishedCounts(st.s.finished, CallStep(st.s, CallOf(t).value, a).1);
    } else {
      assert !MidCall(t) by { NotCalling(t); }
      IdleCounts(st.s, t, a);
    }
  }

  lemma NotCalling(t: Task)
    ensures CallOf(t).None? ==> !MidCall(t)
  {
  }

  lemma FinishedCounts(finished: seq<Call>, c: Call)
    ensures var all := finished + (if c.pc.Returned() then [c] else []);
      && Count(all, IsRouted) == Count(finished, IsRouted) + (if c.pc.Routed? then 1 else 0)
      && Count(all, IsQuarantined) == Count(finished, IsQuarantined) + (if c.pc.Quarantined? then 1 else 0)
      && Count(all, IsFailed) == Count(finished, IsFailed) + (if c.pc.Failed? then 1 else 0)
  {
    if c.pc.Returned() {
      CountAppend(finished, c, IsRouted);
      CountAppend(finished, c, IsQuarantined);
      CountAppend(finished, c, IsFailed);
    } else {
      assert finished + [] == finished;
    }
  }

  lemma NextCounted(st: Sys, a: Action)
    requires Sound(st) && Counted(st)
    ensures Counted(Next(st, a))
  {
    hide Sound; hide Count; hide MidCall;
    match a
    case Act(i, answer) => if i < |st.tasks| { ActCounted(st, i, answer); }
    case PublishMessage(_) =>
    case Announce(_) =>
    case Create(_, _, _) =>
    case Delete(_) =>
    case _ => StartCounted(st, a);
  }

  lemma StartCounted(st: Sys, a: Action)
    requires Counted(st) && (a.Deliver? || a.DeliverApproval? || a.HandCategory? || a.HandOne?)
    ensures Counted(Next(st, a))
  {
    hide Count;
    if Next(st, a) != st {
      var t := Next(st, a).tasks[|st.tasks|];
      assert Next(st, a) == StartTask(st, t) && !MidCall(t);
      CountAppend(st.tasks, t, MidCall);
    }
  }

  lemma {:induction false} EveryRunCounted(lokiSet: bool, actions: seq<Action>)
    ensures Counted(Run(lokiSet, actions))
  {
    if actions != [] {
      EveryRunCounted(lokiSet, actions[..|actions| - 1]);
      EveryRunSound(lokiSet, actions[..|actions| - 1]);
      NextCounted(Run(lokiSet, actions[..|actions| - 1]), actions[|actions| - 1]);
    }
  }

  // Main result: every processed envelope is routed, quarantined or failed, once the calls in
  // progress are set aside; unparseable messages count as quarantined only.
  lemma CountersAddUp(lokiSet: bool, actions: seq<Action>)
    ensures var st := Run(lokiSet, actions);
      && st.s.counts.processed == st.s.counts.routed + (st.s.counts.quarantined - st.s.unparseable)
           + Count(st.s.finished, IsFailed) + Count(st.tasks, MidCall)
      && st.s.counts.replayed <= st.s.counts.routed
  {
    EveryRunCounted(lokiSet, actions);
  }

  // --- Event rows ---

  // How many of the first n destinations are stored in the events table.
  function PostgresAmong(dests: seq<string>, n: nat): nat {
    if n == 0 || n > |dests| then 0 else PostgresAmong(dests, n - 1) + if ToPostgres(dests[n - 1]) then 1 else 0
  }

  // The rows a call has inserted when it has come to this point: one for each such destination
  // it has reached, none if it quarantines.
  function Inserted(pc: Pc): nat {
    match pc
    case Route(schema, next) => PostgresAmong(Destinations(schema.routing), next)
    case Insert(schema, next, _, _) => PostgresAmong(Destinations(schema.routing), next)
    case Routed(schema) => PostgresAmong(Destinations(schema.routing), |Destinations(schema.routing)|)
    case Failed(dests, done) => PostgresAmong(dests, done)
    case _ => 0
  }

  ghost predicate AddsRows(events: seq<EventRow>, events': seq<EventRow>, e: Envelope, n: int) {
    && 0 <= n <= 1 && |events'| == |events| + n
    && events == events'[..|events|] && (n == 1 ==> events'[|events|].envelope == e)
  }

  lemma RouteInserted(s: Shared, c: Call, a: Answer)
    requires c.pc.Route? && Evidence(s, c)
    ensures var (s', c') := CallStep(s, c, a); Inserted(c'.pc) == Inserted(c.pc) && s'.tables == s.tables
  {
    hide LookUp; hide InsertRow; hide Upsert; hide Validate; hide Destinations; hide ResolveForInsert; hide Get;
    hide Reached;
  }

  lemma InsertInserted(s: Shared, c: Call, a: Answer)
    requires c.pc.Insert? && Evidence(s, c)
    ensures var (s', c') := CallStep(s, c, a);
      Inserted(c'.pc) >= Inserted(c.pc)
        && AddsRows(s.tables.events, s'.tables.events, c.env, Inserted(c'.pc) - Inserted(c.pc))
  {
    hide LookUp; hide RouteNext; hide Upsert; hide Validate; hide Destinations; hide ResolveForInsert; hide Get;
    hide Reached;
  }

  lemma OtherInserted(s: Shared, c: Call, a: Answer)
    requires c.pc.Start? || c.pc.Record? || c.pc.Publish?
    ensures var (s', c') := CallStep(s, c, a); Inserted(c'.pc) == 0 && s'.tables == s.tables
  {
    hide RouteNext; hide InsertRow; hide Upsert; hide Validate; hide Destinations; hide Get; hide RegistryClient.Answer;
    assert forall schema: RegistrySchema :: PostgresAmong(Destinations(schema.routing), 0) == 0;
    assert PostgresAmong([], 0) == 0;
  }

  lemma CallInserted(s: Shared, c: Call, a: Answer)
    requires !c.pc.Returned() && Evidence(s, c)
    ensures var (s', c') := CallStep(s, c, a);
      Inserted(c'.pc) >= Inserted(c.pc)
        && AddsRows(s.tables.events, s'.tables.events, c.env, Inserted(c'.pc) - Inserted(c.pc))
  {
    if c.pc.Route? { RouteInserted(s, c, a); }
    else if c.pc.Insert? { InsertInserted(s, c, a); }
    else { OtherInserted(s, c, a); }
    hide CallStep; hide Inserted; hide Evidence;
    assert c.pc.Start? || c.pc.Record? || c.pc.Publish? ==> Inserted(c.pc) == 0 by { NothingInserted(c.pc); }
  }

  lemma NothingInserted(pc: Pc)
    ensures pc.Start? || pc.Record? || pc.Publish? || pc.Quarantined? ==> Inserted(pc) == 0
  {
  }

  // Main result, for one call of Process on its own: it appends as many rows, all for its own
  // envelope, as its result says. A routed call stores the envelope once for each postgres or
  // unknown destination, a failed one for a prefix of the list, a quarantining one never.
  lemma {:induction false} ProcessInserts(s: Shared, c: Call, net: nat -> Answer, i: nat)
    requires Evidence(s, c)
    ensures var (s', c', _) := RunCall(s, c, net, i);
      && c'.pc.Returned() && Inserted(c'.pc) >= Inserted(c.pc)
      && |s'.tables.events| == |s.tables.events| + Inserted(c'.pc) - Inserted(c.pc)
      && s.tables.events == s'.tables.events[..|s.tables.events|]
      && (forall k | |s.tables.events| <= k < |s'.tables.events| :: s'.tables.events[k].envelope == c.env)
      && Evidence(s', c')
    decreases c.pc.Rank().0, c.pc.Rank().1
  {
    if !c.pc.Returned() {
      var (s1, c1) := CallStep(s, c, net(i));
      CallStepDescends(s, c, net(i));
      CallInserted(s, c, net(i));
      CallEvidence(s, c, net(i));
      assert RunCall(s, c, net, i) == RunCall(s1, c1, net, i + 1);
      hide CallStep; hide Inserted; hide Evidence; hide RunCall; hide AddsRows;
      ProcessInserts(s1, c1, net, i + 1);
      var (s', c', _) := RunCall(s1, c1, net, i + 1);
      AddsMore(s.tables.events, s1.tables.events, s'.tables.events, c.env, Inserted(c1.pc) - Inserted(c.pc));
    }
  }

  lemma AddsMore(events: seq<EventRow>, events1: seq<EventRow>, events': seq<EventRow>, e: Envelope, n: int)
    requires AddsRows(events, events1, e, n)
    requires |events1| <= |events'| && events1 == events'[..|events1|]
    requires forall k | |events1| <= k < |events'| :: events'[k].envelope == e
    ensures |events1| == |events| + n && |events| <= |events'| && events == events'[..|events|]
    ensures forall k | |events| <= k < |events'| :: events'[k].envelope == e
  {
    assert events1[..|events|] == events;
    assert events'[..|events1|][..|events|] == events'[..|events|];
    forall k | |events| <= k < |events1| ensures events'[k].envelope == e { assert events'[k] == events1[k]; }
  }

  // The rows that calls of Process on e have inserted.
  function CallRows(e: Envelope): Call -> nat {
    (c: Call) => if c.env == e then Inserted(c.pc) else 0
  }

  function TaskRows(e: Envelope): Task -> nat {
    (t: Task) => match CallOf(t) case Some(c) => if c.env == e then Inserted(c.pc) else 0 case None => 0
  }

  function IsFor(e: Envelope): EventRow -> bool {
    (r: EventRow) => r.envelope == e
  }

  // The event rows of e are exactly what its calls inserted.
  ghost predicate Accounted(st: Sys, e: Envelope) {
    Count(st.s.tables.events, IsFor(e)) == Sum(st.s.finished, CallRows(e)) + Sum(st.tasks, TaskRows(e))
  }

  lemma CountMore(events: seq<EventRow>, events': seq<EventRow>, f: Envelope, n: int, e: Envelope)
    requires AddsRows(events, events', f, n)
    ensures Count(events', IsFor(e)) == Count(events, IsFor(e)) + if f == e then n else 0
  {
    if n == 1 {
      CountAppend(events, events'[|events|], IsFor(e));
      assert events' == events + [events'[|events|]];
    } else {
      assert events' == events;
    }
  }

  lemma NextRowRows(e: Envelope, trigger: Trigger, category: string, left: seq<QRow>, n: nat)
    ensures TaskRows(e)(Replay(trigger, category, NextRow(left, n))) == 0
  {
    hide Decode;
  }

  lemma AfterStepRows(e: Envelope, t: Task, c: Call)
    requires CallOf(t).Some?
    ensures TaskRows(e)(AfterStep(t, c)) == if c.pc.Returned() then 0 else CallRows(e)(c)
  {
    hide NextRow; hide Inserted;
    if t.Replay? { NextRowRows(e, t.trigger, t.category, t.phase.left, t.phase.replayed); }
  }

  lemma IdleRows(e: Envelope, s: Shared, t: Task, a: Answer)
    requires CallOf(t).None?
    ensures TaskRows(e)(TaskStep(s, t, a).1) == 0
  {
    hide NextRow; hide Get; hide CallStep; hide PendingOf; hide RegistryClient.Answer; hide IndexOf; hide Mark;
    hide Bump; hide Inserted;
    if t.Replay? {
      match t.phase
      case Fetching(id) =>
        if IndexOf(s.rows, id) < |s.rows| {
          NextRowRows(e, t.trigger, t.category, [s.rows[IndexOf(s.rows, id)]], 0);
        }
      case Querying => NextRowRows(e, t.trigger, t.category, PendingOf(s.rows, t.category), 0);
      case Marking(row, left, n) => NextRowRows(e, t.trigger, t.category, left, n + 1);
      case Bumping(row, left, n) => NextRowRows(e, t.trigger, t.category, left, n);
      case _ =>
    }
  }

  // The balance of one step of a call.
  lemma CallingRows(s: Shared, ms: Messages, t: Task, a: Answer, e: Envelope)
    requires CallOf(t).Some? && TaskFits(ms, t) && Evidence(s, CallOf(t).value)
    ensures var (s', t') := TaskStep(s, t, a);
      Count(s'.tables.events, IsFor(e)) - Count(s.tables.events, IsFor(e)) ==
        Sum(s'.finished, CallRows(e)) - Sum(s.finished, CallRows(e)) + TaskRows(e)(t') - TaskRows(e)(t)
  {
    hide CallStep; hide TaskStep; hide AfterStep; hide Count; hide Sum; hide Inserted; hide AllStored;
    hide Origins.Stores; hide IsFor;
    var c := CallOf(t).value;
    var (s1, c1) := CallStep(s, c, a);
    CallingStep(s, t, a);
    CallCounts(s, c, a);
    CallInserted(s, c, a);
    hide Evidence; hide TaskFits;
    CountMore(s.tables.events, s1.tables.events, c.env, Inserted(c1.pc) - Inserted(c.pc), e);
    AfterStepRows(e, t, c1);
    if c1.pc.Returned() { SumAppend(s.finished, c1, CallRows(e)); } else { assert s.finished + [] == s.finished; }
  }

  lemma ActAccounted(st: Sys, i: nat, a: Answer, e: Envelope)
    requires Backed(st) && Accounted(st, e) && i < |st.tasks|
    ensures Accounted(ActOf(st, i, a), e)
  {
    hide TaskStep; hide Count; hide Sum; hide IsFor; hide Evidence; hide Sound; hide StateBacked;
    var t := st.tasks[i];
    assert TaskFits(st.messages, t) by { SoundTask(st, i); }
    assert TaskBacked(st.s, st.messages, t);
    SumUpdate(st.tasks, i, TaskStep(st.s, t, a).1, TaskRows(e));
    if CallOf(t).Some? {
      CallingRows(st.s, st.messages, t, a, e);
    } else {
      IdleStep(st.s, t, a);
      IdleRows(e, st.s, t, a);
    }
  }

  lemma SoundTask(st: Sys, i: nat)
    requires Sound(st) && i < |st.tasks|
    ensures TaskFits(st.messages, st.tasks[i])
  {
  }

  lemma NextAccounted(st: Sys, a: Action, e: Envelope)
    requires Backed(st) && Accounted(st, e)
    ensures Accounted(Next(st, a), e)
  {
    hide Backed; hide Count; hide Sum; hide IsFor; hide CallRows; hide TaskRows;
    match a
    case Act(i, answer) => if i < |st.tasks| { ActAccounted(st, i, answer, e); }
    case PublishMessage(_) =>
    case Announce(_) =>
    case Create(name, document, routing) => CreateVersionCategories(st.s.tables, name, document, routing);
    case Delete(_) =>
    case _ => StartAccounted(st, a, e);
  }

  lemma StartAccounted(st: Sys, a: Action, e: Envelope)
    requires Accounted(st, e) && (a.Deliver? || a.DeliverApproval? || a.HandCategory? || a.HandOne?)
    ensures Accounted(Next(st, a), e)
  {
    hide Count; hide Sum; hide IsFor;
    if Next(st, a) != st {
      var t := Next(st, a).tasks[|st.tasks|];
      assert Next(st, a) == StartTask(st, t) && TaskRows(e)(t) == 0;
      SumAppend(st.tasks, t, TaskRows(e));
    }
  }

  // Main result: in every run the event rows of an envelope are those its calls inserted.
  lemma {:induction false} EveryRowAccounted(lokiSet: bool, actions: seq<Action>, e: Envelope)
    ensures Accounted(Run(lokiSet, actions), e)
  {
    if actions != [] {
      EveryRowAccounted(lokiSet, actions[..|actions| - 1], e);
      EveryRunBacked(lokiSet, actions[..|actions| - 1]);
      NextAccounted(Run(lokiSet, actions[..|actions| - 1]), actions[|actions| - 1], e);
    }
  }

  // --- Attempts ---

  // Each row has as many attempts as there were upserts under its id after the first, plus
  // bumps; no replay ever has to bump, because every stored row decodes.
  ghost predicate AttemptsCounted(s: Shared) {
    && s.bumps == []
    && (forall i | 0 <= i < |s.rows| ::
          s.rows[i].attempts + 1 == multiset(s.upserts)[s.rows[i].id] + multiset(s.bumps)[s.rows[i].id])
    && (forall id | id in s.upserts :: HasRow(s.rows, id))
  }

  lemma UpsertAttempts(s: Shared, e: Envelope, reason: Reason)
    requires AttemptsCounted(s) && DistinctRows(s.rows)
    ensures AttemptsCounted(s.(rows := Upsert(s.rows, e, reason), upserts := s.upserts + [e.eventId]))
  {
    UpsertHasRow(s.rows, e, reason);
    hide Encode;
    var i := IndexOf(s.rows, e.eventId);
    assert i == |s.rows| ==> e.eventId !in s.upserts;
    assert forall j | 0 <= j < |s.rows| && j != i :: s.rows[j].id != e.eventId;
  }

  lemma MarkAttempts(s: Shared, id: string)
    requires AttemptsCounted(s)
    ensures AttemptsCounted(s.(rows := Mark(s.rows, id)))
  {
    MarkHasRow(s.rows, id);
  }

  lemma AttemptsOnly(s: Shared, s': Shared)
    requires AttemptsCounted(s) && s'.rows == s.rows && s'.upserts == s.upserts && s'.bumps == s.bumps
    ensures AttemptsCounted(s')
  {
  }

  lemma TaskAttempts(s: Shared, ms: Messages, t: Task, a: Answer)
    requires AttemptsCounted(s) && DistinctRows(s.rows) && TaskFits(ms, t)
    ensures AttemptsCounted(TaskStep(s, t, a).0)
  {
    hide AttemptsCounted; hide TaskStep; hide CallStep; hide AfterStep; hide AllStored; hide Stored;
    hide Origins.Stores;
    var s' := TaskStep(s, t, a).0;
    if CallOf(t).Some? {
      var c := CallOf(t).value;
      CallingStep(s, t, a);
      CallTouches(s, c, a);
      if s'.upserts != s.upserts {
        hide Upsert; hide CallOf;
        UpsertAttempts(s, c.env, c.pc.reason);
        AttemptsOnly(s.(rows := Upsert(s.rows, c.env, c.pc.reason), upserts := s.upserts + [c.env.eventId]), s');
      } else {
        hide Upsert;
        AttemptsOnly(s, s');
      }
    } else {
      IdleStep(s, t, a);
      IdleRowsStay(s, t, a);
      if s'.rows == s.rows {
        AttemptsOnly(s, s');
      } else {
        MarkAttempts(s, t.phase.row.id);
        AttemptsOnly(s.(rows := Mark(s.rows, t.phase.row.id)), s');
      }
    }
  }

  lemma IdleRowsStay(s: Shared, t: Task, a: Answer)
    requires CallOf(t).None? && (t.Replay? ==> !t.phase.Bumping?)
    ensures var s' := TaskStep(s, t, a).0;
      s'.bumps == s.bumps
      && (s'.rows == s.rows
          || (t.Replay? && t.phase.Marking? && s'.rows == Mark(s.rows, t.phase.row.id)))
  {
    hide NextRow; hide Get; hide CallStep; hide PendingOf; hide RegistryClient.Answer; hide IndexOf; hide Mark;
    hide Bump;
  }

  lemma NextAttempts(st: Sys, a: Action)
    requires Sound(st) && AttemptsCounted(st.s)
    ensures AttemptsCounted(Next(st, a).s)
  {
    if a.Act? && a.task < |st.tasks| {
      assert TaskFits(st.messages, st.tasks[a.task]);
      hide Sound; hide AttemptsCounted; hide TaskFits; hide TaskStep;
      TaskAttempts(st.s, st.messages, st.tasks[a.task], a.answer);
    } else {
      hide Sound; hide AttemptsCounted;
      AttemptsOnly(st.s, Next(st, a).s);
    }
  }

  // Main result: in every run, attempts = successful upserts - 1 + bumps, row by row.
  lemma {:induction false} EveryRunAttempts(lokiSet: bool, actions: seq<Action>)
    ensures AttemptsCounted(Run(lokiSet, actions).s)
  {
    if actions != [] {
      EveryRunAttempts(lokiSet, actions[..|actions| - 1]);
      EveryRunSound(lokiSet, actions[..|actions| - 1]);
      NextAttempts(Run(lokiSet, actions[..|actions| - 1]), actions[|actions| - 1]);
    }
  }
}
