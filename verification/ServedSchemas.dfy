/**
 Where the schemas come from that the normalizer judges and routes by, and what it judges: every
 schema was served by the registry for that category, earlier in the same run; what is routed
 conforms to its schema, and what is quarantined does not, or its category was missing.
 */
module ServedSchemas {
  import opened Prelude
  import opened SchemaInference
  import opened Envelopes
  import opened RegistryTables
  import opened RegistryClient
  import opened QuarantineTable
  import opened Normalizer
  import opened NormalizerRuns
  import opened Origins
  import opened ReplayForward

  // Schemas by category, and categories without one.
  datatype Known = Known(served: iset<(string, RegistrySchema)>, missing: iset<string>)

  ghost predicate CacheFrom(cache: Cache, known: Known) {
    forall c | c in cache :: (c, cache[c].schema) in known.served
  }

  ghost predicate Serves(t: Tables, known: Known) {
    && (forall c | Serve(t, c).Ok200? :: (c, Serve(t, c).schema) in known.served)
    && (forall c | Serve(t, c).NotFound404? :: c in known.missing)
  }

  ghost predicate ListFrom(dests: seq<string>, c: string, known: Known) {
    dests == [] || exists schema :: (c, schema) in known.served && dests == Destinations(schema.routing)
  }

  // Why an event is quarantined: it has no schema, or does not conform to the one it has.
  ghost predicate Refused(e: Envelope, reason: Reason, known: Known) {
    match reason
    case UnknownCategory => e.category in known.missing
    case SchemaValidationFailed(version) => FailsVersion(e, version, known)
    case UnparseableStored => false
  }

  ghost predicate FailsVersion(e: Envelope, version: nat, known: Known) {
    exists schema :: (e.category, schema) in known.served && schema.version == version
                     && !schema.document.Unusable? && !Conforms(schema.document, e.payload)
  }

  ghost predicate AcceptedBy(e: Envelope, schema: RegistrySchema, known: Known) {
    (e.category, schema) in known.served && Conforms(schema.document, e.payload)
  }

  // The schema a call has been judged by and the verdict, and the list it routes along.
  ghost predicate CallFrom(c: Call, known: Known) {
    match c.pc
    case Route(schema, _) => AcceptedBy(c.env, schema, known)
    case Insert(schema, _, _, _) => AcceptedBy(c.env, schema, known)
    case Routed(schema) => AcceptedBy(c.env, schema, known)
    case Record(reason) => Refused(c.env, reason, known)
    case Publish(reason) => Refused(c.env, reason, known)
    case Quarantined(reason) => Refused(c.env, reason, known)
    case Failed(dests, _) => ListFrom(dests, c.env.category, known)
    case _ => true
  }

  ghost predicate TaskFrom(t: Task, known: Known) {
    CallOf(t).Some? ==> CallFrom(CallOf(t).value, known)
  }

  ghost predicate AllFrom(st: Sys, known: Known) {
    && CacheFrom(st.s.cache, known)
    && (forall i | 0 <= i < |st.s.finished| :: CallFrom(st.s.finished[i], known))
    && (forall i | 0 <= i < |st.tasks| :: TaskFrom(st.tasks[i], known))
  }

  // --- Steps ---

  lemma GetFrom(t: Tables, cache: Cache, c: string, now: real, fault: Fault, known: Known)
    requires CacheFrom(cache, known) && Serves(t, known)
    ensures var (cache', r) := Get(cache, c, now, RegistryClient.Answer(t, c, fault));
      && CacheFrom(cache', known)
      && (r.Found? ==> (c, r.schema) in known.served) && (r.SchemaNotFound? ==> c in known.missing)
  {
    hide Serve;
  }

  lemma RoutingFrom(s: Shared, c: Call, schema: RegistrySchema, next: nat, outcome: Outcome, known: Known)
    requires AcceptedBy(c.env, schema, known)
    ensures CallFrom(Proceed(s, c, schema, next).1, known) && Proceed(s, c, schema, next).0.cache == s.cache
    ensures CallFrom(Settle(s, c, schema, next, outcome).1, known)
    ensures Settle(s, c, schema, next, outcome).0.cache == s.cache
  {
    hide Destinations; hide Conforms;
  }

  lemma StartFrom(s: Shared, c: Call, a: Answer, known: Known)
    requires c.pc.Start? && CacheFrom(s.cache, known) && Serves(s.tables, known)
    ensures var (s', c') := CallStep(s, c, a); CacheFrom(s'.cache, known) && CallFrom(c', known)
  {
    GetFrom(s.tables, s.cache, c.env.category, a.now, a.fault, known);
    var r := Get(s.cache, c.env.category, a.now, RegistryClient.Answer(s.tables, c.env.category, a.fault)).1;
    if r.Found? {
      ValidateIff(r.schema.document, c.env.payload);
      assert Conforms(r.schema.document, c.env.payload) ==> AcceptedBy(c.env, r.schema, known);
      assert !r.schema.document.Unusable? && !Conforms(r.schema.document, c.env.payload)
        ==> FailsVersion(c.env, r.schema.version, known);
    }
    hide AcceptedBy; hide FailsVersion; hide Conforms; hide Get; hide RegistryClient.Answer; hide Validate;
    hide Destinations; hide CacheFrom; hide Serves; hide RouteNext; hide InsertRow; hide Upsert;
  }

  lemma RouteFrom(s: Shared, c: Call, a: Answer, known: Known)
    requires c.pc.Route? && CallFrom(c, known)
    ensures var (s', c') := CallStep(s, c, a); s'.cache == s.cache && CallFrom(c', known)
  {
    var Route(schema, next) := c.pc;
    var s1 := if a.outcome.TookEffect() then s.(loki := s.loki + [c.env]) else s;
    RoutingFrom(s1, c, schema, next, a.outcome, known);
    RoutingFrom(s, c, schema, next, a.outcome, known);
    RoutingFrom(s, c, schema, next + 1, a.outcome, known);
    hide AcceptedBy; hide Refused; hide Proceed; hide Settle; hide ResolveForInsert; hide ToPostgres;
    hide Destinations; hide LookUp; hide InsertRow; hide Upsert;
  }

  lemma InsertFrom(s: Shared, c: Call, a: Answer, known: Known)
    requires c.pc.Insert? && CallFrom(c, known)
    ensures var (s', c') := CallStep(s, c, a); s'.cache == s.cache && CallFrom(c', known)
  {
    var Insert(schema, next, categoryId, schemaId) := c.pc;
    hide RegistryTables.InsertEvent; hide Destinations; hide LookUp; hide RouteNext; hide Upsert; hide AcceptedBy;
    match if a.outcome.TookEffect() then InsertEvent(s.tables, categoryId, schemaId, c.env) else None
    case Some(tables) => RoutingFrom(s.(tables := tables), c, schema, next, a.outcome, known);
    case None =>
  }

  lemma RecordFrom(s: Shared, c: Call, a: Answer, known: Known)
    requires (c.pc.Record? || c.pc.Publish?) && CallFrom(c, known)
    ensures var (s', c') := CallStep(s, c, a); s'.cache == s.cache && CallFrom(c', known)
  {
    hide LookUp; hide RouteNext; hide InsertRow; hide Upsert;
  }

  lemma CallStepFrom(s: Shared, c: Call, a: Answer, known: Known)
    requires CacheFrom(s.cache, known) && Serves(s.tables, known) && CallFrom(c, known) && !c.pc.Returned()
    ensures var (s', c') := CallStep(s, c, a); CacheFrom(s'.cache, known) && CallFrom(c', known)
  {
    hide CallStep; hide CacheFrom; hide Serves; hide CallFrom;
    match c.pc
    case Start => StartFrom(s, c, a, known);
    case Route(_, _) => RouteFrom(s, c, a, known);
    case Insert(_, _, _, _) => InsertFrom(s, c, a, known);
    case _ => RecordFrom(s, c, a, known);
  }

  lemma NextRowFrom(trigger: Trigger, category: string, left: seq<QRow>, n: nat, known: Known)
    ensures TaskFrom(Replay(trigger, category, NextRow(left, n)), known)
  {
    hide Decode;
  }

  lemma AfterStepFrom(t: Task, c: Call, known: Known)
    requires CallOf(t).Some? && CallFrom(c, known)
    ensures TaskFrom(AfterStep(t, c), known)
  {
    hide NextRow; hide CallFrom;
    if t.Replay? { NextRowFrom(t.trigger, t.category, t.phase.left, t.phase.replayed, known); }
  }

  lemma IdleTaskFrom(s: Shared, t: Task, a: Answer, known: Known)
    requires CallOf(t).None? && CacheFrom(s.cache, known) && Serves(s.tables, known)
    ensures var (s', t') := TaskStep(s, t, a); CacheFrom(s'.cache, known) && TaskFrom(t', known)
  {
    if t.Replay? { GetFrom(s.tables, s.cache, t.category, a.now, a.fault, known); }
    hide NextRow; hide Get; hide CallStep; hide PendingOf; hide RegistryClient.Answer; hide IndexOf; hide Mark;
    hide Bump; hide Serves; hide CallFrom;
    if t.Replay? {
      match t.phase
      case Fetching(id) =>
        var i := IndexOf(s.rows, id);
        if i < |s.rows| { NextRowFrom(t.trigger, t.category, [s.rows[i]], 0, known); }
      case Querying => NextRowFrom(t.trigger, t.category, PendingOf(s.rows, t.category), 0, known);
      case Marking(row, left, n) => NextRowFrom(t.trigger, t.category, left, n + 1, known);
      case Bumping(row, left, n) => NextRowFrom(t.trigger, t.category, left, n, known);
      case _ =>
    }
  }

  lemma TaskStepFrom(s: Shared, t: Task, a: Answer, known: Known)
    requires CacheFrom(s.cache, known) && Serves(s.tables, known) && TaskFrom(t, known)
    requires CallOf(t).Some? ==> !CallOf(t).value.pc.Returned()
    ensures var (s', t') := TaskStep(s, t, a);
      && CacheFrom(s'.cache, known) && TaskFrom(t', known)
      && FinishedFrom(s.finished, s'.finished, known)
  {
    hide TaskStep; hide CallStep; hide AfterStep; hide CacheFrom; hide Serves; hide CallFrom;
    if CallOf(t).Some? {
      var c := CallOf(t).value;
      CallingStep(s, t, a);
      CallCounts(s, c, a);
      CallStepFrom(s, c, a, known);
      AfterStepFrom(t, CallStep(s, c, a).1, known);
    } else {
      IdleTaskFrom(s, t, a, known);
      IdleStep(s, t, a);
    }
  }

  // --- Runs ---

  // The finished calls after a step: the same, and at most one more.
  ghost predicate FinishedFrom(finished: seq<Call>, finished': seq<Call>, known: Known) {
    || finished' == finished
    || (|finished'| == |finished| + 1 && finished == finished'[..|finished|] && CallFrom(finished'[|finished|], known))
  }

  lemma ActFrom(st: Sys, i: nat, a: Answer, known: Known)
    requires Sound(st) && AllFrom(st, known) && Serves(st.s.tables, known) && i < |st.tasks|
    ensures AllFrom(ActOf(st, i, a), known)
  {
    var t := st.tasks[i];
    NotReturned(st.messages, t) by { assert TaskFits(st.messages, st.tasks[i]); }
    assert CacheFrom(st.s.cache, known) && TaskFrom(t, known);
    var (s', t') := TaskStep(st.s, t, a);
    hide Sound; hide TaskStep; hide CacheFrom; hide Serves; hide CallFrom; hide TaskFrom; hide CallOf;
    hide AllFrom; hide FinishedFrom;
    TaskStepFrom(st.s, t, a, known);
    Replaced(st, i, s', t', known);
  }

  lemma Replaced(st: Sys, i: nat, s': Shared, t': Task, known: Known)
    requires AllFrom(st, known) && i < |st.tasks|
    requires CacheFrom(s'.cache, known) && TaskFrom(t', known) && FinishedFrom(st.s.finished, s'.finished, known)
    ensures AllFrom(st.(s := s', tasks := st.tasks[i := t']), known)
  {
    hide CacheFrom; hide CallFrom; hide TaskFrom;
    forall j | 0 <= j < |s'.finished| ensures CallFrom(s'.finished[j], known) {
      if j < |st.s.finished| { assert s'.finished[j] == st.s.finished[j]; }
    }
  }

  lemma NotReturned(ms: Messages, t: Task)
    requires TaskFits(ms, t)
    ensures CallOf(t).Some? ==> !CallOf(t).value.pc.Returned()
  {
  }

  lemma NextFrom(st: Sys, a: Action, known: Known)
    requires Sound(st) && AllFrom(st, known) && Serves(st.s.tables, known)
    ensures AllFrom(Next(st, a), known)
  {
    hide Sound; hide CacheFrom; hide Serves; hide CallFrom; hide TaskStep; hide Apply; hide NewId;
    match a
    case Act(i, answer) => if i < |st.tasks| { ActFrom(st, i, answer, known); }
    case Create(_, _, _) =>
    case Delete(_) =>
    case PublishMessage(_) =>
    case Announce(_) =>
    case _ => BeginFrom(st, a, known);
  }

  lemma BeginFrom(st: Sys, a: Action, known: Known)
    requires AllFrom(st, known) && (a.Deliver? || a.DeliverApproval? || a.HandCategory? || a.HandOne?)
    ensures AllFrom(Next(st, a), known)
  {
    hide CacheFrom;
    if Next(st, a) != st {
      var t := Next(st, a).tasks[|st.tasks|];
      assert Next(st, a) == StartTask(st, t) && TaskFrom(t, known);
      hide CallFrom; hide TaskFrom;
    }
  }

  // At some point of the run this was the active version of c in the registry.
  ghost predicate ServedIn(lokiSet: bool, actions: seq<Action>, c: string, schema: RegistrySchema) {
    exists n | 0 <= n <= |actions| :: Sends(Run(lokiSet, actions[..n]).s.tables, c, schema)
  }

  // At some point of the run the registry had no such category.
  ghost predicate MissingIn(lokiSet: bool, actions: seq<Action>, c: string) {
    exists n | 0 <= n <= |actions| :: c !in Run(lokiSet, actions[..n]).s.tables.categories
  }

  ghost function ServedSoFar(lokiSet: bool, actions: seq<Action>): Known {
    Known(iset c: string, schema: RegistrySchema | ServedIn(lokiSet, actions, c, schema) :: (c, schema),
          iset c: string | MissingIn(lokiSet, actions, c))
  }

  lemma ServeSends(t: Tables, c: string)
    ensures Serve(t, c).Ok200? ==> Sends(t, c, Serve(t, c).schema)
    ensures Inv(t) && Serve(t, c).NotFound404? ==> c !in t.categories
  {
    if Inv(t) && c in t.categories { QueriesAgree(t, c); }
    hide Inv; hide ActiveSchema;
  }

  lemma ServedNow(lokiSet: bool, actions: seq<Action>)
    ensures Serves(Run(lokiSet, actions).s.tables, ServedSoFar(lokiSet, actions))
  {
    EveryRunTriggers(lokiSet, actions);
    hide Run; hide Serve; hide Sends; hide Inv;
    var t := Run(lokiSet, actions).s.tables;
    assert actions[..|actions|] == actions;
    forall c ensures Serve(t, c).Ok200? ==> ServedIn(lokiSet, actions, c, Serve(t, c).schema)
             ensures Serve(t, c).NotFound404? ==> MissingIn(lokiSet, actions, c)
    {
      ServeSends(t, c);
      assert t == Run(lokiSet, actions[..|actions|]).s.tables;
    }
  }

  // What has been known stays so.
  ghost predicate Grew(known: Known, more: Known) {
    known.served <= more.served && known.missing <= more.missing
  }

  lemma ServedBefore(lokiSet: bool, actions: seq<Action>)
    requires actions != []
    ensures Grew(ServedSoFar(lokiSet, actions[..|actions| - 1]), ServedSoFar(lokiSet, actions))
  {
    hide Run; hide Sends;
    var init := actions[..|actions| - 1];
    forall c, schema | ServedIn(lokiSet, init, c, schema) ensures ServedIn(lokiSet, actions, c, schema) {
      var n :| 0 <= n <= |init| && Sends(Run(lokiSet, init[..n]).s.tables, c, schema);
      assert init[..n] == actions[..n];
    }
    forall c | MissingIn(lokiSet, init, c) ensures MissingIn(lokiSet, actions, c) {
      var n :| 0 <= n <= |init| && c !in Run(lokiSet, init[..n]).s.tables.categories;
      assert init[..n] == actions[..n];
    }
  }

  lemma CallFromMore(c: Call, known: Known, more: Known)
    requires CallFrom(c, known) && Grew(known, more)
    ensures CallFrom(c, more)
  {
    hide Destinations; hide Conforms;
  }

  lemma FromMore(st: Sys, known: Known, more: Known)
    requires AllFrom(st, known) && Grew(known, more)
    ensures AllFrom(st, more)
  {
    hide CallFrom;
    forall c | CallFrom(c, known) ensures CallFrom(c, more) { CallFromMore(c, known, more); }
  }

  // Main result: in every run, every schema that the cache holds, that a call is routing by or that
  // a call has been routed by was served by the registry for that category.
  lemma {:induction false} EveryRunServed(lokiSet: bool, actions: seq<Action>)
    ensures AllFrom(Run(lokiSet, actions), ServedSoFar(lokiSet, actions))
  {
    if actions != [] {
      var init := actions[..|actions| - 1];
      EveryRunServed(lokiSet, init);
      EveryRunSound(lokiSet, init);
      ServedNow(lokiSet, init);
      hide AllFrom; hide Sound; hide Serves; hide ServedSoFar; hide Next;
      NextFrom(Run(lokiSet, init), actions[|actions| - 1], ServedSoFar(lokiSet, init));
      ServedBefore(lokiSet, actions);
      FromMore(Run(lokiSet, actions), ServedSoFar(lokiSet, init), ServedSoFar(lokiSet, actions));
    }
  }

  // What a returned call says about its event.
  ghost predicate JudgedRightly(lokiSet: bool, actions: seq<Action>, c: Call) {
    match c.pc
    case Routed(schema) =>
      ServedIn(lokiSet, actions, c.env.category, schema) && Conforms(schema.document, c.env.payload)
    case Quarantined(UnknownCategory) => MissingIn(lokiSet, actions, c.env.category)
    case Quarantined(SchemaValidationFailed(v)) =>
      exists schema :: ServedIn(lokiSet, actions, c.env.category, schema) && schema.version == v
                       && !schema.document.Unusable? && !Conforms(schema.document, c.env.payload)
    case Quarantined(UnparseableStored) => false
    case _ => true
  }

  // Main result: in every run, an event that was routed conforms to a schema that the registry
  // served for its category; an event that was quarantined under version v does not conform to such
  // a schema of version v; and one that was quarantined for its category had no such category.
  lemma EveryCallJudged(lokiSet: bool, actions: seq<Action>)
    ensures forall k | 0 <= k < |Run(lokiSet, actions).s.finished| ::
      JudgedRightly(lokiSet, actions, Run(lokiSet, actions).s.finished[k])
  {
    EveryRunServed(lokiSet, actions);
    var finished := Run(lokiSet, actions).s.finished;
    hide Run; hide ServedIn; hide MissingIn; hide Conforms;
    forall k | 0 <= k < |finished| ensures JudgedRightly(lokiSet, actions, finished[k]) {
      assert CallFrom(finished[k], ServedSoFar(lokiSet, actions));
      hide AllFrom;
    }
  }
}
