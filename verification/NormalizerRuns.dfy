/**
 Runs of the normalizer: messages are published and delivered (again), approvals announced,
 replays started by hand, categories created and deleted, in any order, and the tasks this
 starts take their steps in any interleaving and with any failures. A task that is never
 stepped again has crashed.
 */
module NormalizerRuns {
  import opened Prelude
  import opened SchemaInference
  import opened Envelopes
  import opened RegistryTables
  import opened RegistryClient
  import opened QuarantineTable
  import opened Normalizer

  datatype Approval = Approval(category: string, version: nat)

  // `messages` is the ingest stream; None is a message that does not decode.
  datatype Sys = Sys(s: Shared, messages: seq<Option<Envelope>>, approvals: seq<Approval>, tasks: seq<Task>)

  datatype Action =
    | PublishMessage(content: Option<Envelope>)
    | Deliver(message: nat)
    | Announce(approval: Approval)
    | DeliverApproval(message: nat)
    | HandCategory(category: string)
    | HandOne(id: string)
    | Create(name: string, document: Schema, routing: Routing)
    | Delete(name: string)
    | Act(task: nat, answer: Answer)

  // Every envelope carries a newly minted event id.
  predicate NewId(messages: seq<Option<Envelope>>, e: Envelope) {
    forall i | 0 <= i < |messages| && messages[i].Some? :: messages[i].value.eventId != e.eventId
  }

  function Next(st: Sys, a: Action): Sys {
    match a
    case PublishMessage(content) =>
      if content.Some? && !NewId(st.messages, content.value) then st else st.(messages := st.messages + [content])
    case Deliver(m) =>
      if m < |st.messages| then
        StartTask(st, Ingest(m, match st.messages[m] case None => Garbage case Some(e) => Handling(Call(e, Start))))
      else st
    case Announce(approval) =>
      st.(approvals := st.approvals + [approval])
    case DeliverApproval(m) =>
      if m < |st.approvals| then
        StartTask(st, Replay(ByApproval(m), st.approvals[m].category,
                             if st.approvals[m].category == "" then Ignoring else Invalidating))
      else st
    case HandCategory(category) => StartTask(st, Replay(ByHand, category, Probing))
    case HandOne(id) => StartTask(st, Replay(ByHand, "", Fetching(id)))
    case Create(name, document, routing) =>
      st.(s := st.s.(tables := Apply(st.s.tables, Op.Create(name, document, routing))))
    case Delete(name) => st.(s := st.s.(tables := Apply(st.s.tables, Op.Delete(name))))
    case Act(i, answer) => if i < |st.tasks| then ActOf(st, i, answer) else st
  }

  function StartTask(st: Sys, t: Task): Sys {
    st.(tasks := st.tasks + [t])
  }

  function ActOf(st: Sys, i: nat, a: Answer): Sys
    requires i < |st.tasks|
  {
    var (s', t') := TaskStep(st.s, st.tasks[i], a);
    st.(s := s', tasks := st.tasks[i := t'])
  }

  function Initial(lokiSet: bool): Sys {
    Sys(Shared(EMPTY, map[], [], [], [], lokiSet, Counters(0, 0, 0, 0, 0), {}, {}, [], [], [], 0), [], [], [])
  }

  function Run(lokiSet: bool, actions: seq<Action>): Sys {
    if actions == [] then Initial(lokiSet) else Next(Run(lokiSet, actions[..|actions| - 1]), actions[|actions| - 1])
  }

  // --- What one step can touch ---

  // The call a task is in.
  function CallOf(t: Task): Option<Call> {
    match t
    case Ingest(_, Handling(c)) => Some(c)
    case Replay(_, _, Calling(_, c, _, _)) => Some(c)
    case _ => None
  }

  // A task outside a call: neither the tables, the streams nor the finished calls change.
  ghost predicate Idle(s: Shared, s': Shared) {
    && s'.tables == s.tables && s'.stream == s.stream && s'.loki == s.loki && s'.lokiSet == s.lokiSet
    && s'.finished == s.finished && s'.upserts == s.upserts
  }

  lemma IdleStep(s: Shared, t: Task, a: Answer)
    requires CallOf(t).None?
    ensures Idle(s, TaskStep(s, t, a).0)
  {
    hide NextRow; hide Get; hide CallStep; hide PendingOf; hide Mark; hide Bump; hide IndexOf;
    hide RegistryClient.Answer;
  }

  // What a step does to a call's task once the call has taken its step.
  function AfterStep(t: Task, c: Call): Task
    requires CallOf(t).Some?
  {
    match t
    case Ingest(m, _) => Ingest(m, if c.pc.Returned() then Settling(!c.pc.Failed?) else Handling(c))
    case Replay(trigger, category, Calling(row, _, left, n)) =>
      Replay(trigger, category,
        if c.pc.Routed? then Marking(row, left, n)
        else if c.pc.Quarantined? then NextRow(left, n)
        else if c.pc.Failed? then Reporting(n, false)
        else Calling(row, c, left, n))
  }

  // A task in a call takes a step of the call, and a replay counts an event that now routes.
  lemma CallingStep(s: Shared, t: Task, a: Answer)
    requires CallOf(t).Some? && !CallOf(t).value.pc.Returned()
    ensures var (s1, c1) := CallStep(s, CallOf(t).value, a);
      && TaskStep(s, t, a).1 == AfterStep(t, c1)
      && TaskStep(s, t, a).0 == (if t.Replay? && c1.pc.Routed?
                                 then s1.(counts := s1.counts.(replayed := s1.counts.replayed + 1)) else s1)
  {
    hide CallStep; hide NextRow;
  }

  // One step of a call: it returns by entering the history, and counts what it does.
  lemma CallCounts(s: Shared, c: Call, a: Answer)
    requires !c.pc.Returned()
    ensures var (s', c') := CallStep(s, c, a);
      && c'.env == c.env && !c'.pc.Start?
      && s'.finished == s.finished + (if c'.pc.Returned() then [c'] else [])
      && s'.counts.processed == s.counts.processed + (if c.pc.Start? then 1 else 0)
      && s'.counts.routed == s.counts.routed + (if c'.pc.Routed? then 1 else 0)
      && s'.counts.quarantined == s.counts.quarantined + (if c'.pc.Quarantined? then 1 else 0)
      && s'.counts.replayed == s.counts.replayed && s'.unparseable == s.unparseable
  {
    hide Get; hide RegistryClient.Answer; hide Validate; hide Upsert; hide ResolveForInsert;
    hide RegistryTables.InsertEvent; hide Destinations;
  }

  // What it leaves alone, and the one thing it may add: to the quarantine ...
  lemma CallTouchesRows(s: Shared, c: Call, a: Answer)
    requires !c.pc.Returned()
    ensures var (s', c') := CallStep(s, c, a);
      && s'.acked == s.acked && s'.approvalsAcked == s.approvalsAcked && s'.bumps == s.bumps
      && ((s'.rows == s.rows && s'.upserts == s.upserts)
          || (c.pc.Record? && s'.rows == Upsert(s.rows, c.env, c.pc.reason)
             && s'.upserts == s.upserts + [c.env.eventId]))
      && (s'.stream == s.stream || s'.stream == s.stream + [c.env])
  {
    hide Get; hide RegistryClient.Answer; hide Validate; hide Upsert; hide ResolveForInsert; hide Destinations;
    hide RegistryTables.InsertEvent;
  }

  // ... or to a destination.
  lemma CallTouches(s: Shared, c: Call, a: Answer)
    requires !c.pc.Returned()
    ensures var (s', c') := CallStep(s, c, a);
      && s'.lokiSet == s.lokiSet && s'.acked == s.acked && s'.approvalsAcked == s.approvalsAcked && s'.bumps == s.bumps
      && ((s'.rows == s.rows && s'.upserts == s.upserts)
          || (c.pc.Record? && s'.rows == Upsert(s.rows, c.env, c.pc.reason)
             && s'.upserts == s.upserts + [c.env.eventId]))
      && (s'.stream == s.stream || s'.stream == s.stream + [c.env])
      && (s'.loki == s.loki || s'.loki == s.loki + [c.env])
      && s'.tables == s.tables.(events := s'.tables.events)
      && (s'.tables.events == s.tables.events
          || (c.pc.Insert? && s'.tables.events == s.tables.events + [EventRow(c.pc.categoryId, c.pc.schemaId, c.env)]))
  {
    CallTouchesRows(s, c, a);
    hide Get; hide RegistryClient.Answer; hide Validate; hide Upsert; hide ResolveForInsert; hide Destinations;
    hide HasSchema;
  }
}
