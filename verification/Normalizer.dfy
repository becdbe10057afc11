/**
 The normalizer's message handling (internal/normalizer/worker.go:125-326 and
 server.go:110-150), one external call per step.

 A call is one execution of Process; a task is one execution of a message or HTTP handler,
 which runs calls. `Shared` is everything they act on. Several tasks may be under way at once,
 so a step only uses the shared state and the task's own local variables.
 */
module Normalizer {
  import opened Prelude
  import opened Json
  import opened SchemaInference
  import opened Envelopes
  import opened RegistryTables
  import opened RegistryClient
  import opened QuarantineTable

  // --- Validation and routing ---

  datatype Verdict = Valid | Invalid | Unloadable

  // validatePayload; a null payload is not an object.
  function Validate(document: Schema, payload: Option<Payload>): Verdict {
    if document.Unusable? then Unloadable
    else if payload.Some? && Accepts(document, payload.value) then Valid
    else Invalid
  }

  lemma ValidateIff(document: Schema, payload: Option<Payload>)
    ensures Validate(document, payload) ==
      if document.Unusable? then Unloadable else if Conforms(document, payload) then Valid else Invalid
  {
    hide Accepts; hide Conforms;
    NoPayload(document);
    if payload.Some? { AcceptsIff(document, payload.value); }
  }

  lemma NoPayload(document: Schema)
    ensures !Conforms(document, None)
  {
  }

  function Destinations(r: Routing): (ds: seq<string>)
    ensures ds != []
  {
    if |r.targets| > 0 then r.targets
    else if r.target != "" then [r.target]
    else ["postgres"]
  }

  // "postgres" and every name the router does not know.
  predicate ToPostgres(dest: string) {
    dest != "loki" && dest != "tempo" && dest != "mimir"
  }

  // --- Calls of Process ---

  datatype Pc =
    | Start
    | Route(schema: RegistrySchema, next: nat)
    | Insert(schema: RegistrySchema, next: nat, categoryId: nat, schemaId: nat)
    | Record(reason: Reason)
    | Publish(reason: Reason)
    // Results:
    | Routed(schema: RegistrySchema)
    | Quarantined(reason: Reason)
    | Failed(dests: seq<string>, done: nat)     // an error; `done` of the destinations took effect
  {
    predicate Returned() { Routed? || Quarantined? || Failed? }

    function Rank(): (nat, nat) {
      match this
      case Start => (2, 0)
      case Route(schema, next) => (1, 2 * Remaining(schema, next) + 1)
      case Insert(schema, next, _, _) => (1, 2 * Remaining(schema, next))
      case Record(_) => (1, 1)
      case Publish(_) => (1, 0)
      case _ => (0, 0)
    }
  }

  function Remaining(schema: RegistrySchema, next: nat): nat {
    var n := |Destinations(schema.routing)|;
    if next < n then n - next else 0
  }

  datatype Call = Call(env: Envelope, pc: Pc)

  datatype Counters = Counters(processed: nat, routed: nat, failedValid: nat, quarantined: nat, replayed: nat)

  datatype Shared = Shared(
    tables: Tables,
    cache: Cache,
    rows: seq<QRow>,
    stream: seq<Envelope>,        // the quarantine stream
    loki: seq<Envelope>,          // accepted pushes
    lokiSet: bool,                // LOKI_PUSH_URL is configured
    counts: Counters,
    acked: set<nat>,              // acknowledged ingest messages
    approvalsAcked: set<nat>,     // acknowledged approval messages
    // History, which no handler reads:
    finished: seq<Call>,          // calls that have returned
    upserts: seq<string>,         // ids of the upserts into the quarantine table that took effect
    bumps: seq<string>,
    unparseable: nat)

  // What the world contributes to a step: the time, whether the registry can be reached, and
  // how the call ends.
  datatype Answer = Answer(now: real, fault: Fault, outcome: Outcome)

  function Return(s: Shared, c: Call, pc: Pc): (Shared, Call) {
    (s.(finished := s.finished + [Call(c.env, pc)]), Call(c.env, pc))
  }

  // Destination `next` is up, or the list is done.
  function Proceed(s: Shared, c: Call, schema: RegistrySchema, next: nat): (Shared, Call) {
    if next < |Destinations(schema.routing)| then (s, Call(c.env, Route(schema, next)))
    else Return(s.(counts := s.counts.(routed := s.counts.routed + 1)), c, Routed(schema))
  }

  // A destination call has ended: move on, or return its error.
  function Settle(s: Shared, c: Call, schema: RegistrySchema, next: nat, outcome: Outcome): (Shared, Call) {
    if outcome.Ok? then Proceed(s, c, schema, next + 1)
    else Return(s, c, Failed(Destinations(schema.routing), if outcome.TookEffect() then next + 1 else next))
  }

  function LookUp(s: Shared, c: Call, a: Answer): (Shared, Call) {
    var (cache, r) := Get(s.cache, c.env.category, a.now, RegistryClient.Answer(s.tables, c.env.category, a.fault));
    var s1 := s.(cache := cache, counts := s.counts.(processed := s.counts.processed + 1));
    match r
    case SchemaNotFound => (s1, Call(c.env, Record(UnknownCategory)))
    case LookupError => Return(s1, c, Failed([], 0))
    case Found(schema) =>
      match Validate(schema.document, c.env.payload)
      case Unloadable => Return(s1, c, Failed([], 0))
      case Invalid =>
        (s1.(counts := s1.counts.(failedValid := s1.counts.failedValid + 1)),
          Call(c.env, Record(SchemaValidationFailed(schema.version))))
      case Valid => Proceed(s1, c, schema, 0)
  }

  function RouteNext(s: Shared, c: Call, schema: RegistrySchema, next: nat, a: Answer): (Shared, Call) {
    var dests := Destinations(schema.routing);
    if next >= |dests| then Proceed(s, c, schema, next)
    else if ToPostgres(dests[next]) then
      (match if a.outcome.Ok? then ResolveForInsert(s.tables, c.env.category) else None
       case Some((categoryId, schemaId)) => (s, Call(c.env, Pc.Insert(schema, next, categoryId, schemaId)))
       case None => Return(s, c, Failed(dests, next)))
    else if dests[next] == "loki" && s.lokiSet then
      Settle(if a.outcome.TookEffect() then s.(loki := s.loki + [c.env]) else s, c, schema, next, a.outcome)
    else Proceed(s, c, schema, next + 1)
  }

  function InsertRow(s: Shared, c: Call, schema: RegistrySchema, next: nat, categoryId: nat, schemaId: nat,
                     a: Answer): (Shared, Call) {
    match if a.outcome.TookEffect() then InsertEvent(s.tables, categoryId, schemaId, c.env) else None
    case Some(tables) => Settle(s.(tables := tables), c, schema, next, a.outcome)
    case None => Return(s, c, Failed(Destinations(schema.routing), next))
  }

  function CallStep(s: Shared, c: Call, a: Answer): (Shared, Call) {
    match c.pc
    case Start => LookUp(s, c, a)
    case Route(schema, next) => RouteNext(s, c, schema, next, a)
    case Insert(schema, next, categoryId, schemaId) => InsertRow(s, c, schema, next, categoryId, schemaId, a)
    case Record(reason) =>
      var s1 := if a.outcome.TookEffect()
                then s.(rows := Upsert(s.rows, c.env, reason), upserts := s.upserts + [c.env.eventId]) else s;
      if a.outcome.Ok? then (s1, Call(c.env, Publish(reason))) else Return(s1, c, Failed([], 0))
    case Publish(reason) =>
      var s1 := if a.outcome.TookEffect() then s.(stream := s.stream + [c.env]) else s;
      if a.outcome.Ok?
      then Return(s1.(counts := s1.counts.(quarantined := s1.counts.quarantined + 1)), c, Quarantined(reason))
      else Return(s1, c, Failed([], 0))
    case _ => (s, c)
  }

  lemma CallStepDescends(s: Shared, c: Call, a: Answer)
    requires !c.pc.Returned()
    ensures var r, r' := c.pc.Rank(), CallStep(s, c, a).1.pc.Rank(); r'.0 < r.0 || (r'.0 == r.0 && r'.1 < r.1)
    ensures CallStep(s, c, a).1.env == c.env
  {
  }

  // One call of Process on its own: the state, the result, and how many answers it used up.
  function RunCall(s: Shared, c: Call, net: nat -> Answer, i: nat): (Shared, Call, nat)
    decreases c.pc.Rank().0, c.pc.Rank().1
  {
    if c.pc.Returned() then (s, c, i) else
      CallStepDescends(s, c, net(i));
      var (s', c') := CallStep(s, c, net(i));
      RunCall(s', c', net, i + 1)
  }

  lemma RunFromStart(s: Shared, e: Envelope, net: nat -> Answer, i: nat)
    ensures var (s', c') := LookUp(s, Call(e, Start), net(i));
      && RunCall(s, Call(e, Start), net, i) == RunCall(s', c', net, i + 1)
      && (c'.pc.Returned() ==> RunCall(s', c', net, i + 1) == (s', c', i + 1))
  {
    hide LookUp; hide RouteNext; hide InsertRow;
  }

  // A call that has recorded nothing yet: both quarantine calls in one.
  function QuarantineAlone(s: Shared, e: Envelope, reason: Reason, recorded: Outcome,
                           published: Outcome): (Shared, Pc) {
    var s1 := if recorded.TookEffect() then s.(rows := Upsert(s.rows, e, reason), upserts := s.upserts + [e.eventId])
      else s;
    var s2 := if recorded.Ok? && published.TookEffect() then s1.(stream := s1.stream + [e]) else s1;
    var done := recorded.Ok? && published.Ok?;
    var pc := if done then Quarantined(reason) else Failed([], 0);
    (s2.(counts := s2.counts.(quarantined := s2.counts.quarantined + if done then 1 else 0),
      finished := s2.finished + [Call(e, pc)]), pc)
  }

  lemma QuarantineRuns(s: Shared, e: Envelope, reason: Reason, net: nat -> Answer, i: nat)
    ensures var (s', pc) := QuarantineAlone(s, e, reason, net(i).outcome, net(i + 1).outcome);
      RunCall(s, Call(e, Record(reason)), net, i) == (s', Call(e, pc), if net(i).outcome.Ok? then i + 2 else i + 1)
  {
    hide Upsert; hide LookUp; hide RouteNext; hide InsertRow;
    var (s1, c1) := CallStep(s, Call(e, Record(reason)), net(i));
    if !c1.pc.Returned() {
      assert RunCall(s1, c1, net, i + 1)
        == RunCall(CallStep(s1, c1, net(i + 1)).0, CallStep(s1, c1, net(i + 1)).1, net, i + 2);
    }
  }

  // How a call ends from destination k on.
  function RunFrom(s: Shared, e: Envelope, schema: RegistrySchema, k: nat, net: nat -> Answer,
                   i: nat): (Shared, Call, nat) {
    var (s', c) := Proceed(s, Call(e, Start), schema, k);
    RunCall(s', c, net, i)
  }

  // One destination, which takes one or two external calls: the state, whether it was
  // reached, the destinations that took effect if not, and the calls made.
  function RouteAlone(s: Shared, e: Envelope, dests: seq<string>, k: nat, first: Outcome,
                      second: Outcome): (Shared, bool, nat, nat)
    requires k < |dests|
  {
    if ToPostgres(dests[k]) then
      match if first.Ok? then ResolveForInsert(s.tables, e.category) else None
      case None => (s, false, k, 1)
      case Some((categoryId, schemaId)) =>
        match if second.TookEffect() then InsertEvent(s.tables, categoryId, schemaId, e) else None
        case None => (s, false, k, 2)
        case Some(tables) => (s.(tables := tables), second.Ok?, k + 1, 2)
    else if dests[k] == "loki" && s.lokiSet then
      (if first.TookEffect() then s.(loki := s.loki + [e]) else s, first.Ok?,
       if first.TookEffect() then k + 1 else k, 1)
    else (s, true, k + 1, 1)
  }

  lemma RouteRuns(s: Shared, e: Envelope, schema: RegistrySchema, k: nat, net: nat -> Answer, i: nat)
    requires k < |Destinations(schema.routing)|
    ensures var dests := Destinations(schema.routing);
      var (s', ok, done, used) := RouteAlone(s, e, dests, k, net(i).outcome, net(i + 1).outcome);
      RunFrom(s, e, schema, k, net, i) ==
        if ok then RunFrom(s', e, schema, k + 1, net, i + used)
        else (s'.(finished := s'.finished + [Call(e, Failed(dests, done))]), Call(e, Failed(dests, done)), i + used)
  {
    hide LookUp; hide Upsert; hide Destinations; hide ResolveForInsert; hide RegistryTables.InsertEvent;
    var dests := Destinations(schema.routing);
    var c := Call(e, Pc.Route(schema, k));
    var (s1, c1) := RouteNext(s, c, schema, k, net(i));
    assert RunFrom(s, e, schema, k, net, i) == RunCall(s, c, net, i) == RunCall(s1, c1, net, i + 1);
    if ToPostgres(dests[k]) {
      var resolved := if net(i).outcome.Ok? then ResolveForInsert(s.tables, e.category) else None;
      if resolved.Some? {
        RouteInserts(s, e, schema, k, resolved.value.0, resolved.value.1, net, i + 1);
      }
    }
  }

  lemma RouteInserts(s: Shared, e: Envelope, schema: RegistrySchema, k: nat, categoryId: nat, schemaId: nat,
                     net: nat -> Answer, i: nat)
    requires k < |Destinations(schema.routing)|
    ensures var dests := Destinations(schema.routing);
      RunCall(s, Call(e, Pc.Insert(schema, k, categoryId, schemaId)), net, i) ==
        match if net(i).outcome.TookEffect() then InsertEvent(s.tables, categoryId, schemaId, e) else None
        case None => (s.(finished := s.finished + [Call(e, Failed(dests, k))]), Call(e, Failed(dests, k)), i + 1)
        case Some(tables) =>
          if net(i).outcome.Ok? then RunFrom(s.(tables := tables), e, schema, k + 1, net, i + 1)
          else (s.(tables := tables, finished := s.finished + [Call(e, Failed(dests, k + 1))]),
            Call(e, Failed(dests, k + 1)), i + 1)
  {
    hide LookUp; hide Upsert; hide RouteNext; hide Destinations; hide RegistryTables.InsertEvent;
  }

  // --- Tasks ---

  datatype Trigger = ByApproval(message: nat) | ByHand

  datatype Task =
    | Ingest(message: nat, ingest: IngestPhase)
    | Replay(trigger: Trigger, category: string, phase: ReplayPhase)

  datatype IngestPhase =
    | Garbage                                   // the message does not decode
    | Handling(call: Call)
    | Settling(ok: bool)                        // ack or nak
    | Settled

  // `left` are the rows still to replay, `replayed` the rows replayed so far.
  datatype ReplayPhase =
    | Ignoring                                  // an approval without a category
    | Invalidating
    | Probing                                   // the HTTP handler first looks the schema up
    | Fetching(id: string)                      // the HTTP handler for one event
    | Querying
    | Calling(row: QRow, call: Call, left: seq<QRow>, replayed: nat)
    | Marking(row: QRow, left: seq<QRow>, replayed: nat)
    | Bumping(row: QRow, left: seq<QRow>, replayed: nat)
    | Reporting(replayed: nat, ok: bool)        // ack, nak or HTTP reply
    | Closed(replayed: nat, ok: bool)

  predicate Over(t: Task) {
    match t
    case Ingest(_, phase) => phase.Settled?
    case Replay(_, _, phase) => phase.Closed?
  }

  // The next row of ReplayCategory's loop.
  function NextRow(left: seq<QRow>, replayed: nat): ReplayPhase {
    if left == [] then Reporting(replayed, true)
    else match Decode(left[0].raw)
      case None => Bumping(left[0], left[1..], replayed)
      case Some(env) => Calling(left[0], Call(env, Start), left[1..], replayed)
  }

  function IngestStep(s: Shared, message: nat, phase: IngestPhase, a: Answer): (Shared, IngestPhase) {
    match phase
    case Garbage =>
      (s.(counts := s.counts.(quarantined := s.counts.quarantined + 1), unparseable := s.unparseable + 1),
        Settling(true))
    case Handling(call) =>
      if call.pc.Returned() then (s, Settling(!call.pc.Failed?)) else
        var (s', c') := CallStep(s, call, a);
        (s', if c'.pc.Returned() then Settling(!c'.pc.Failed?) else Handling(c'))
    case Settling(ok) =>
      (if ok && a.outcome.TookEffect() then s.(acked := s.acked + {message}) else s, Settled)
    case Settled => (s, Settled)
  }

  // A call made by ReplayOne has returned.
  function AfterCall(s: Shared, row: QRow, c: Call, left: seq<QRow>, replayed: nat): (Shared, ReplayPhase) {
    match c.pc
    case Routed(_) => (s.(counts := s.counts.(replayed := s.counts.replayed + 1)), Marking(row, left, replayed))
    case Quarantined(_) => (s, NextRow(left, replayed))
    case _ => (s, Reporting(replayed, false))
  }

  function ReplayStep(s: Shared, trigger: Trigger, category: string, phase: ReplayPhase,
                      a: Answer): (Shared, ReplayPhase) {
    match phase
    case Ignoring => (s, Reporting(0, true))
    case Invalidating => (s.(cache := s.cache - {category}), Querying)
    case Probing =>
      var (cache, r) := Get(s.cache, category, a.now, RegistryClient.Answer(s.tables, category, a.fault));
      (s.(cache := cache), if r.Found? then Querying else Reporting(0, false))
    case Fetching(id) =>
      var i := IndexOf(s.rows, id);
      (s,
       if a.outcome.Ok? && i < |s.rows| && s.rows[i].status == PendingReplay then NextRow([s.rows[i]], 0)
       else Reporting(0, false))
    case Querying => (s, if a.outcome.Ok? then NextRow(PendingOf(s.rows, category), 0) else Reporting(0, false))
    case Calling(row, call, left, replayed) =>
      if call.pc.Returned() then AfterCall(s, row, call, left, replayed) else
        var (s', c') := CallStep(s, call, a);
        if c'.pc.Returned() then AfterCall(s', row, c', left, replayed) else (s', Calling(row, c', left, replayed))
    case Marking(row, left, replayed) =>
      (if a.outcome.TookEffect() then s.(rows := Mark(s.rows, row.id)) else s,
       if a.outcome.Ok? then NextRow(left, replayed + 1) else Reporting(replayed, false))
    case Bumping(row, left, replayed) =>
      (if a.outcome.TookEffect() then s.(rows := Bump(s.rows, row.id, UnparseableStored), bumps := s.bumps + [row.id])
       else s,
       if a.outcome.Ok? then NextRow(left, replayed) else Reporting(replayed, false))
    case Reporting(replayed, ok) =>
      (if ok && trigger.ByApproval? && a.outcome.TookEffect()
       then s.(approvalsAcked := s.approvalsAcked + {trigger.message}) else s,
       Closed(replayed, ok))
    case Closed(_, _) => (s, phase)
  }

  function TaskStep(s: Shared, t: Task, a: Answer): (Shared, Task) {
    match t
    case Ingest(message, phase) => var (s', p') := IngestStep(s, message, phase, a); (s', Ingest(message, p'))
    case Replay(trigger, category, phase) =>
      var (s', p') := ReplayStep(s, trigger, category, phase, a); (s', Replay(trigger, category, p'))
  }

  // --- A replay on its own ---

  function Rank(p: ReplayPhase): (nat, nat, nat, nat, nat) {
    match p
    case Ignoring => (3, 0, 0, 0, 0)
    case Invalidating => (3, 0, 0, 0, 0)
    case Probing => (3, 0, 0, 0, 0)
    case Fetching(_) => (2, 0, 0, 0, 0)
    case Querying => (2, 0, 0, 0, 0)
    case Calling(_, call, left, _) => (1, |left|, 1, call.pc.Rank().0, call.pc.Rank().1)
    case Marking(_, left, _) => (1, |left|, 0, 0, 0)
    case Bumping(_, left, _) => (1, |left|, 0, 0, 0)
    case _ => (0, 0, 0, 0, 0)
  }

  ghost predicate Less(a: (nat, nat, nat, nat, nat), b: (nat, nat, nat, nat, nat)) {
    a.0 < b.0 || (a.0 == b.0 && (a.1 < b.1 || (a.1 == b.1 && (a.2 < b.2 || (a.2 == b.2 &&
      (a.3 < b.3 || (a.3 == b.3 && a.4 < b.4)))))))
  }

  lemma NextRowDescends(left: seq<QRow>, replayed: nat)
    ensures var r := Rank(NextRow(left, replayed)); r.0 <= 1 && (r.0 == 1 ==> r.1 == |left| - 1)
  {
    hide Decode;
  }

  lemma ReplayStepDescends(s: Shared, trigger: Trigger, category: string, phase: ReplayPhase, a: Answer)
    requires !phase.Reporting? && !phase.Closed?
    ensures Less(Rank(ReplayStep(s, trigger, category, phase, a).1), Rank(phase))
  {
    hide CallStep; hide Pc.Rank; hide NextRow; hide Get; hide PendingOf; hide IndexOf; hide Mark; hide Bump;
    hide RegistryClient.Answer;
    match phase
    case Calling(row, call, left, replayed) =>
      if !call.pc.Returned() { CallStepDescends(s, call, a); }
      NextRowDescends(left, replayed);
    case Marking(row, left, replayed) => NextRowDescends(left, replayed + 1);
    case Bumping(row, left, replayed) => NextRowDescends(left, replayed);
    case Fetching(id) => if IndexOf(s.rows, id) < |s.rows| { NextRowDescends([s.rows[IndexOf(s.rows, id)]], 0); }
    case Querying => NextRowDescends(PendingOf(s.rows, category), 0);
    case _ =>
  }

  // A replay that runs alone, from a phase to its report, with the answers net(i), net(i + 1), ...
  function RunReplay(s: Shared, trigger: Trigger, category: string, phase: ReplayPhase, net: nat -> Answer,
                     i: nat): (Shared, ReplayPhase, nat)
    decreases Rank(phase).0, Rank(phase).1, Rank(phase).2, Rank(phase).3, Rank(phase).4
  {
    if phase.Reporting? || phase.Closed? then (s, phase, i) else
      ReplayStepDescends(s, trigger, category, phase, net(i));
      var (s', p') := ReplayStep(s, trigger, category, phase, net(i));
      RunReplay(s', trigger, category, p', net, i + 1)
  }

  // A replay first runs the call it is in, then carries on with its result.
  lemma {:induction false} RunReplayThroughCall(s: Shared, trigger: Trigger, category: string, row: QRow, call: Call,
                                                left: seq<QRow>, replayed: nat, net: nat -> Answer, i: nat)
    requires !call.pc.Returned()
    ensures var (s1, c, j) := RunCall(s, call, net, i);
      var (s2, p) := AfterCall(s1, row, c, left, replayed);
      RunReplay(s, trigger, category, Calling(row, call, left, replayed), net, i)
        == RunReplay(s2, trigger, category, p, net, j)
    decreases call.pc.Rank().0, call.pc.Rank().1
  {
    CallStepDescends(s, call, net(i));
    var (s', c') := CallStep(s, call, net(i));
    if !c'.pc.Returned() {
      RunReplayThroughCall(s', trigger, category, row, c', left, replayed, net, i + 1);
    }
  }

  lemma {:induction false} RunCallReturns(s: Shared, c: Call, net: nat -> Answer, i: nat)
    ensures RunCall(s, c, net, i).1.pc.Returned()
    decreases c.pc.Rank().0, c.pc.Rank().1
  {
    if !c.pc.Returned() {
      CallStepDescends(s, c, net(i));
      var (s', c') := CallStep(s, c, net(i));
      RunCallReturns(s', c', net, i + 1);
    }
  }

  lemma NextRowIs(row: QRow, left: seq<QRow>, replayed: nat)
    ensures NextRow([row] + left, replayed) == match Decode(row.raw)
      case None => Bumping(row, left, replayed)
      case Some(e) => Calling(row, Call(e, Start), left, replayed)
  {
    hide Decode;
    assert ([row] + left)[1..] == left;
  }

  lemma ReplayBumps(s: Shared, trigger: Trigger, category: string, row: QRow, left: seq<QRow>, replayed: nat,
                    net: nat -> Answer, i: nat)
    ensures var s' := if net(i).outcome.TookEffect()
      then s.(rows := Bump(s.rows, row.id, UnparseableStored), bumps := s.bumps + [row.id]) else s;
      RunReplay(s, trigger, category, Bumping(row, left, replayed), net, i) ==
        if net(i).outcome.Ok? then RunReplay(s', trigger, category, NextRow(left, replayed), net, i + 1)
          else (s', Reporting(replayed, false), i + 1)
  {
    hide CallStep; hide NextRow; hide Bump;
  }

  lemma ReplayMarks(s: Shared, trigger: Trigger, category: string, row: QRow, left: seq<QRow>, replayed: nat,
                    net: nat -> Answer, i: nat)
    ensures var s' := if net(i).outcome.TookEffect() then s.(rows := Mark(s.rows, row.id)) else s;
      RunReplay(s, trigger, category, Marking(row, left, replayed), net, i) ==
        if net(i).outcome.Ok? then RunReplay(s', trigger, category, NextRow(left, replayed + 1), net, i + 1)
          else (s', Reporting(replayed, false), i + 1)
  {
    hide CallStep; hide NextRow; hide Mark;
  }

  // One row of the loop: the state, whether the event now routes, whether there was an error,
  // and the next answer.
  function ReplayOneAlone(s: Shared, row: QRow, net: nat -> Answer, i: nat): (Shared, bool, bool, nat) {
    match Decode(row.raw)
    case None =>
      (if net(i).outcome.TookEffect()
       then s.(rows := Bump(s.rows, row.id, UnparseableStored), bumps := s.bumps + [row.id]) else s,
       false, !net(i).outcome.Ok?, i + 1)
    case Some(e) =>
      var (s1, c, j) := RunCall(s, Call(e, Start), net, i);
      if c.pc.Routed? then
        var s2 := s1.(counts := s1.counts.(replayed := s1.counts.replayed + 1));
        (if net(j).outcome.TookEffect() then s2.(rows := Mark(s2.rows, row.id)) else s2,
         true, !net(j).outcome.Ok?, j + 1)
      else (s1, false, c.pc.Failed?, j)
  }

  lemma ReplayOneRuns(s: Shared, trigger: Trigger, category: string, row: QRow, left: seq<QRow>, replayed: nat,
                      net: nat -> Answer, i: nat)
    ensures var (s', ok, failed, j) := ReplayOneAlone(s, row, net, i);
      RunReplay(s, trigger, category, NextRow([row] + left, replayed), net, i) ==
        if failed then (s', Reporting(replayed, false), j)
        else RunReplay(s', trigger, category, NextRow(left, if ok then replayed + 1 else replayed), net, j)
  {
    NextRowIs(row, left, replayed);
    hide RunReplay; hide RunCall; hide Mark; hide Bump; hide Decode; hide NextRow;
    match Decode(row.raw)
    case None => ReplayBumps(s, trigger, category, row, left, replayed, net, i);
    case Some(e) =>
      RunReplayThroughCall(s, trigger, category, row, Call(e, Start), left, replayed, net, i);
      RunCallReturns(s, Call(e, Start), net, i);
      var (s1, c, j) := RunCall(s, Call(e, Start), net, i);
      if c.pc.Routed? {
        ReplayMarks(s1.(counts := s1.counts.(replayed := s1.counts.replayed + 1)), trigger, category, row, left,
          replayed, net, j);
      } else if c.pc.Failed? {
        ReplayReports(s1, trigger, category, replayed, false, net, j);
      }
  }

  lemma ReplayQueries(s: Shared, trigger: Trigger, category: string, net: nat -> Answer, i: nat)
    ensures RunReplay(s, trigger, category, Querying, net, i) ==
      if net(i).outcome.Ok? then RunReplay(s, trigger, category, NextRow(PendingOf(s.rows, category), 0), net, i + 1)
      else (s, Reporting(0, false), i + 1)
  {
    hide CallStep; hide NextRow; hide PendingOf;
  }

  lemma ReplayInvalidates(s: Shared, trigger: Trigger, category: string, net: nat -> Answer)
    ensures RunReplay(s, trigger, category, Invalidating, net, 0) ==
      RunReplay(s.(cache := s.cache - {category}), trigger, category, Querying, net, 1)
  {
    hide CallStep; hide NextRow;
  }

  lemma ReplayIgnores(s: Shared, trigger: Trigger, category: string, net: nat -> Answer)
    ensures RunReplay(s, trigger, category, Ignoring, net, 0) == (s, Reporting(0, true), 1)
  {
    hide CallStep; hide NextRow;
  }

  lemma ReplayReports(s: Shared, trigger: Trigger, category: string, replayed: nat, ok: bool, net: nat -> Answer,
                      i: nat)
    ensures RunReplay(s, trigger, category, Reporting(replayed, ok), net, i) == (s, Reporting(replayed, ok), i)
  {
  }
}
