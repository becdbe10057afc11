/**
 A replay after an approval never goes back: once version v of a category is announced, and as
 long as the category is there, every event the approval's handler replays is validated
 under version v or later, or the replay stops with an error and the approval is not acknowledged.
 */
module ReplayForward {
  import opened Prelude
  import opened Envelopes
  import opened RegistryTables
  import opened RegistryClient
  import opened QuarantineTable
  import opened Normalizer
  import opened NormalizerRuns
  import opened Origins

  // The call was, or will be, judged by version v or later.
  ghost predicate PcForward(pc: Pc, v: nat) {
    match pc
    case Start => true
    case Route(schema, _) => schema.version >= v
    case Insert(schema, _, _, _) => schema.version >= v
    case Routed(schema) => schema.version >= v
    case Record(reason) => reason.SchemaValidationFailed? && reason.version >= v
    case Publish(reason) => reason.SchemaValidationFailed? && reason.version >= v
    case Quarantined(reason) => reason.SchemaValidationFailed? && reason.version >= v
    case Failed(_, _) => true
  }

  ghost predicate RowsOfCategory(rows: seq<QRow>, c: string) {
    forall i | 0 <= i < |rows| :: CategoryText(rows[i].raw) == Some(c)
  }

  // Where a replay for an approval of version v of c may stand.
  ghost predicate PhaseForward(s: Shared, phase: ReplayPhase, c: string, v: nat) {
    match phase
    case Invalidating => true
    case Querying => Floor(s.tables, s.cache, c, v)
    case Calling(row, call, left, _) =>
      Floor(s.tables, s.cache, c, v) && call.env.category == c && !call.pc.Returned() && PcForward(call.pc, v)
        && RowsOfCategory(left, c)
    case Marking(_, left, _) => Floor(s.tables, s.cache, c, v) && RowsOfCategory(left, c)
    case Bumping(_, left, _) => Floor(s.tables, s.cache, c, v) && RowsOfCategory(left, c)
    case Reporting(_, _) => true
    case Closed(_, _) => true
    case _ => false
  }

  ghost predicate TaskForward(s: Shared, t: Task, m: nat, c: string, v: nat) {
    t.Replay? && t.trigger == ByApproval(m) ==> t.category == c && PhaseForward(s, t.phase, c, v)
  }

  ghost predicate Forward(st: Sys, m: nat, c: string, v: nat) {
    && m < |st.approvals| && st.approvals[m] == Approval(c, v) && c != ""
    && Floor(st.s.tables, map[], c, v)
    && (forall i | 0 <= i < |st.tasks| :: TaskForward(st.s, st.tasks[i], m, c, v))
  }

  // --- One step of a call ---

  lemma CallTables(s: Shared, c: Call, a: Answer)
    requires !c.pc.Returned()
    ensures var s' := CallStep(s, c, a).0;
      s'.tables == s.tables
      || (c.pc.Insert? && s'.tables == Apply(s.tables, Op.Insert(c.pc.categoryId, c.pc.schemaId, c.env)))
  {
    hide Get; hide RegistryClient.Answer; hide Validate; hide Upsert; hide ResolveForInsert; hide Destinations;
    hide RegistryTables.InsertEvent;
  }

  lemma CallCache(s: Shared, c: Call, a: Answer)
    requires !c.pc.Returned()
    ensures var s' := CallStep(s, c, a).0;
      s'.cache == s.cache
      || (c.pc.Start? && s'.cache == Get(s.cache, c.env.category, a.now,
         RegistryClient.Answer(s.tables, c.env.category, a.fault)).0)
  {
    hide Get; hide RegistryClient.Answer; hide Validate; hide Upsert; hide ResolveForInsert; hide Destinations;
    hide RegistryTables.InsertEvent;
  }

  lemma CallKeepsFloor(s: Shared, call: Call, a: Answer, c: string, v: nat)
    requires !call.pc.Returned()
    ensures var s' := CallStep(s, call, a).0;
      && (Floor(s.tables, s.cache, c, v) ==> Floor(s'.tables, s'.cache, c, v))
      && (Floor(s.tables, map[], c, v) ==> Floor(s'.tables, map[], c, v))
  {
    CallTables(s, call, a);
    CallCache(s, call, a);
    var s' := CallStep(s, call, a).0;
    hide CallStep; hide Get; hide RegistryClient.Answer; hide Apply;
    if s'.tables != s.tables {
      var op := Op.Insert(call.pc.categoryId, call.pc.schemaId, call.env);
      if Floor(s.tables, s.cache, c, v) { ApplyKeepsFloor(s.tables, s.cache, c, v, op); }
      if Floor(s.tables, map[], c, v) { ApplyKeepsFloor(s.tables, map[], c, v, op); }
    } else if Floor(s.tables, s.cache, c, v) {
      GetAboveFloor(s.tables, s.cache, c, v, call.env.category, a.now, a.fault);
    }
    hide Floor;
  }

  lemma CallForward(s: Shared, call: Call, a: Answer, c: string, v: nat)
    requires !call.pc.Returned() && call.env.category == c && PcForward(call.pc, v) && Floor(s.tables, s.cache, c, v)
    ensures PcForward(CallStep(s, call, a).1.pc, v)
  {
    if call.pc.Start? { GetAboveFloor(s.tables, s.cache, c, v, c, a.now, a.fault); }
    hide Floor; hide Get; hide RegistryClient.Answer; hide Validate; hide Upsert; hide ResolveForInsert;
    hide Destinations; hide RegistryTables.InsertEvent;
  }

  // --- One step of a task ---

  lemma PendingOfCategory(rows: seq<QRow>, c: string)
    ensures RowsOfCategory(PendingOf(rows, c), c)
  {
    PendingMembers(rows, c);
    assert forall i | 0 <= i < |PendingOf(rows, c)| :: PendingOf(rows, c)[i] in PendingOf(rows, c);
  }

  lemma NextRowForward(s: Shared, left: seq<QRow>, n: nat, c: string, v: nat)
    requires Floor(s.tables, s.cache, c, v) && RowsOfCategory(left, c)
    ensures PhaseForward(s, NextRow(left, n), c, v)
  {
    hide Floor;
  }

  lemma StepKeepsFloor(s: Shared, t: Task, a: Answer, c: string, v: nat)
    requires CallOf(t).Some? ==> !CallOf(t).value.pc.Returned()
    ensures var s' := TaskStep(s, t, a).0;
      && (Floor(s.tables, s.cache, c, v) ==> Floor(s'.tables, s'.cache, c, v))
      && (Floor(s.tables, map[], c, v) ==> Floor(s'.tables, map[], c, v))
  {
    if CallOf(t).Some? {
      CallingStep(s, t, a);
      CallKeepsFloor(s, CallOf(t).value, a, c, v);
      hide CallStep; hide TaskStep; hide Floor;
    } else {
      IdleStep(s, t, a);
      IdleCache(s, t, a);
      if Floor(s.tables, s.cache, c, v) && t.Replay? {
        GetAboveFloor(s.tables, s.cache, c, v, t.category, a.now, a.fault);
      }
      hide TaskStep; hide Get; hide RegistryClient.Answer; hide Inv;
    }
  }

  lemma IdleCache(s: Shared, t: Task, a: Answer)
    requires CallOf(t).None?
    ensures var s' := TaskStep(s, t, a).0;
      || s'.cache == s.cache
      || (t.Replay? && s'.cache == s.cache - {t.category})
      || (t.Replay? && s'.cache == Get(s.cache, t.category, a.now,
         RegistryClient.Answer(s.tables, t.category, a.fault)).0)
  {
    hide NextRow; hide CallStep; hide PendingOf; hide IndexOf; hide Mark; hide Bump; hide Get;
    hide RegistryClient.Answer;
  }

  // The approval's own task goes forward.
  lemma OwnCallForward(s: Shared, t: Task, a: Answer, c: string, v: nat)
    requires t.Replay? && t.phase.Calling? && PhaseForward(s, t.phase, c, v)
    ensures var (s', t') := TaskStep(s, t, a); t'.Replay? && PhaseForward(s', t'.phase, c, v)
  {
    var call := t.phase.call;
    CallingStep(s, t, a);
    CallForward(s, call, a, c, v);
    CallKeepsFloor(s, call, a, c, v);
    CallCounts(s, call, a);
    var (s', t') := TaskStep(s, t, a);
    hide CallStep; hide TaskStep; hide NextRow; hide Floor; hide RowsOfCategory;
    NextRowForward(s', t.phase.left, t.phase.replayed, c, v);
  }

  lemma OwnIdleForward(s: Shared, t: Task, a: Answer, m: nat, c: string, v: nat)
    requires t.Replay? && t.trigger == ByApproval(m) && t.category == c && !t.phase.Calling?
      && PhaseForward(s, t.phase, c, v)
    requires Floor(s.tables, map[], c, v)
    ensures var (s', t') := TaskStep(s, t, a); t'.Replay? && PhaseForward(s', t'.phase, c, v)
  {
    hide NextRow; hide CallStep; hide PendingOf; hide IndexOf; hide Mark; hide Bump; hide Get;
    hide RowsOfCategory; hide RegistryClient.Answer; hide Inv; hide Current;
    var s' := TaskStep(s, t, a).0;
    StepKeepsFloor(s, t, a, c, v);
    if t.phase.Invalidating? { InvalidateSetsFloor(s.tables, s.cache, c, v); }
    hide Floor;
    match t.phase
    case Querying =>
      PendingOfCategory(s.rows, c);
      NextRowForward(s', PendingOf(s.rows, c), 0, c, v);
    case Marking(row, left, n) => NextRowForward(s', left, n + 1, c, v);
    case Bumping(row, left, n) => NextRowForward(s', left, n, c, v);
    case _ =>
  }

  lemma PhaseStays(s: Shared, s': Shared, phase: ReplayPhase, c: string, v: nat)
    requires PhaseForward(s, phase, c, v) && (Floor(s.tables, s.cache, c, v) ==> Floor(s'.tables, s'.cache, c, v))
    ensures PhaseForward(s', phase, c, v)
  {
    hide Floor; hide RowsOfCategory; hide PcForward;
  }

  // --- Runs ---

  lemma ActForward(st: Sys, i: nat, a: Answer, m: nat, c: string, v: nat)
    requires Sound(st) && Forward(st, m, c, v) && i < |st.tasks|
    ensures Forward(ActOf(st, i, a), m, c, v)
  {
    var t := st.tasks[i];
    var (s', t') := TaskStep(st.s, t, a);
    assert TaskFits(st.messages, t) && TaskForward(st.s, t, m, c, v);
    hide CallStep; hide Floor; hide TaskStep; hide AllStored; hide Stores; hide Stored; hide PhaseForward;
    hide DistinctRows;
    StepKeepsFloor(st.s, t, a, c, v);
    hide Sound; hide TaskFits;
    SameTrigger(st.s, t, a);
    if t.Replay? && t.trigger == ByApproval(m) {
      if t.phase.Calling? { OwnCallForward(st.s, t, a, c, v); } else { OwnIdleForward(st.s, t, a, m, c, v); }
    }
    var tasks' := st.tasks[i := t'];
    forall j | 0 <= j < |tasks'| ensures TaskForward(s', tasks'[j], m, c, v) {
      if j != i && st.tasks[j].Replay? && st.tasks[j].trigger == ByApproval(m) {
        assert TaskForward(st.s, st.tasks[j], m, c, v);
        PhaseStays(st.s, s', st.tasks[j].phase, c, v);
      }
    }
  }

  lemma SameTrigger(s: Shared, t: Task, a: Answer)
    ensures var t' := TaskStep(s, t, a).1;
      (t'.Replay? <==> t.Replay?) && (t.Replay? ==> t'.trigger == t.trigger && t'.category == t.category)
  {
    hide ReplayStep; hide IngestStep;
  }

  lemma TablesForward(st: Sys, op: Op, m: nat, c: string, v: nat)
    requires Forward(st, m, c, v) && c in Apply(st.s.tables, op).categories
    ensures Forward(st.(s := st.s.(tables := Apply(st.s.tables, op))), m, c, v)
  {
    var s' := st.s.(tables := Apply(st.s.tables, op));
    ApplyKeepsFloor(st.s.tables, map[], c, v, op);
    if Floor(st.s.tables, st.s.cache, c, v) { ApplyKeepsFloor(st.s.tables, st.s.cache, c, v, op); }
    hide Floor; hide Apply; hide PhaseForward;
    forall j | 0 <= j < |st.tasks| ensures TaskForward(s', st.tasks[j], m, c, v) {
      assert TaskForward(st.s, st.tasks[j], m, c, v);
      if st.tasks[j].Replay? && st.tasks[j].trigger == ByApproval(m) {
        PhaseStays(st.s, s', st.tasks[j].phase, c, v);
      }
    }
  }

  lemma NextForward(st: Sys, a: Action, m: nat, c: string, v: nat)
    requires Sound(st) && Forward(st, m, c, v) && c in Next(st, a).s.tables.categories
    ensures Forward(Next(st, a), m, c, v)
  {
    hide Sound; hide Floor; hide TaskStep; hide PhaseForward; hide Apply; hide NewId;
    match a
    case Act(i, answer) => if i < |st.tasks| { ActForward(st, i, answer, m, c, v); }
    case Create(name, document, routing) => TablesForward(st, Op.Create(name, document, routing), m, c, v);
    case Delete(name) => TablesForward(st, Op.Delete(name), m, c, v);
    case PublishMessage(_) =>
    case Announce(_) =>
    case _ => StartForward(st, a, m, c, v);
  }

  lemma StartForward(st: Sys, a: Action, m: nat, c: string, v: nat)
    requires Forward(st, m, c, v) && (a.Deliver? || a.DeliverApproval? || a.HandCategory? || a.HandOne?)
    ensures Forward(Next(st, a), m, c, v)
  {
    hide Floor;
    if Next(st, a) != st {
      var t := Next(st, a).tasks[|st.tasks|];
      assert Next(st, a) == StartTask(st, t) && TaskForward(st.s, t, m, c, v);
    }
  }

  // Tasks are started only for approvals that have been announced.
  ghost predicate TriggersKnown(st: Sys) {
    forall i | 0 <= i < |st.tasks| && st.tasks[i].Replay? && st.tasks[i].trigger.ByApproval? ::
      st.tasks[i].trigger.message < |st.approvals|
  }

  lemma NextTriggers(st: Sys, a: Action)
    requires TriggersKnown(st)
    ensures TriggersKnown(Next(st, a))
  {
    if a.Act? && a.task < |st.tasks| { SameTrigger(st.s, st.tasks[a.task], a.answer); }
    hide TaskStep; hide Apply;
  }

  lemma {:induction false} EveryRunTriggers(lokiSet: bool, actions: seq<Action>)
    ensures TriggersKnown(Run(lokiSet, actions)) && Inv(Run(lokiSet, actions).s.tables)
  {
    if actions != [] {
      var st := Run(lokiSet, actions[..|actions| - 1]);
      EveryRunTriggers(lokiSet, actions[..|actions| - 1]);
      EveryRunSound(lokiSet, actions[..|actions| - 1]);
      NextTriggers(st, actions[|actions| - 1]);
      NextInv(st, actions[|actions| - 1]);
    }
  }

  lemma NextInv(st: Sys, a: Action)
    requires Sound(st) && Inv(st.s.tables)
    ensures Inv(Next(st, a).s.tables)
  {
    var op := NextTables(st, a);
    hide *;
    if op.Some? { ApplyKeepsInv(st.s.tables, op.value); }
  }

  // A schema.approved event follows the creation of its version.
  predicate Announceable(t: Tables, a: Approval) {
    a.category in t.categories && a.version <= Current(t, a.category)
  }

  // Version v of c is announced at step n.
  ghost predicate Announced(lokiSet: bool, actions: seq<Action>, n: nat, c: string, v: nat) {
    && n < |actions| && c != "" && actions[n] == Announce(Approval(c, v))
    && Announceable(Run(lokiSet, actions[..n]).s.tables, Approval(c, v))
  }

  // From position n on the registry has the category. A delete that is refused may occur.
  ghost predicate StaysIn(lokiSet: bool, actions: seq<Action>, n: nat, c: string) {
    forall k | n <= k <= |actions| :: c in Run(lokiSet, actions[..k]).s.tables.categories
  }

  ghost predicate AnnouncedForGood(lokiSet: bool, actions: seq<Action>, n: nat, c: string, v: nat) {
    Announced(lokiSet, actions, n, c, v) && StaysIn(lokiSet, actions, n, c)
  }

  // Both hold of the run up to a later position.
  lemma GoodForPrefix(lokiSet: bool, actions: seq<Action>, n: nat, c: string, v: nat, k: nat)
    requires AnnouncedForGood(lokiSet, actions, n, c, v) && n < k <= |actions|
    ensures AnnouncedForGood(lokiSet, actions[..k], n, c, v) && actions[..k][..n] == actions[..n]
    ensures c in Run(lokiSet, actions[..k]).s.tables.categories
  {
    var part := actions[..k];
    hide Run; hide Announceable;
    assert part[..n] == actions[..n];
    forall j | n <= j <= k ensures c in Run(lokiSet, part[..j]).s.tables.categories {
      assert part[..j] == actions[..j];
    }
  }

  // A category that has events when its version is announced.
  ghost predicate RoutedAt(lokiSet: bool, actions: seq<Action>, n: nat, c: string)
    requires n <= |actions|
  {
    var t := Run(lokiSet, actions[..n]).s.tables;
    c in t.categories && HasEvents(t, t.categories[c])
  }

  // The tables after a step are those of one of the registry's statements, or none.
  lemma NextTables(st: Sys, a: Action) returns (op: Option<Op>)
    requires Sound(st)
    ensures Next(st, a).s.tables == if op.Some? then Apply(st.s.tables, op.value) else st.s.tables
  {
    hide Apply; hide TaskStep; hide NewId;
    op := None;
    match a
    case Create(name, document, routing) => op := Some(Op.Create(name, document, routing));
    case Delete(name) => op := Some(Op.Delete(name));
    case Act(i, answer) =>
      if i < |st.tasks| {
        assert TaskFits(st.messages, st.tasks[i]);
        hide Sound; hide AllStored; hide Stored; hide Stores;
        op := TaskTables(st.s, st.tasks[i], answer);
      }
    case _ =>
  }

  lemma TaskTables(s: Shared, t: Task, a: Answer) returns (op: Option<Op>)
    requires CallOf(t).Some? ==> !CallOf(t).value.pc.Returned()
    ensures TaskStep(s, t, a).0.tables == if op.Some? then Apply(s.tables, op.value) else s.tables
  {
    hide TaskStep; hide CallStep; hide Apply; hide AfterStep;
    op := None;
    if CallOf(t).Some? {
      var c := CallOf(t).value;
      CallingStep(s, t, a);
      CallTables(s, c, a);
      if TaskStep(s, t, a).0.tables != s.tables {
        op := Some(Op.Insert(c.pc.categoryId, c.pc.schemaId, c.env));
      }
    } else {
      IdleStep(s, t, a);
    }
  }

  lemma RunNext(lokiSet: bool, actions: seq<Action>, k: nat)
    requires k < |actions|
    ensures Run(lokiSet, actions[..k + 1]) == Next(Run(lokiSet, actions[..k]), actions[k])
  {
    assert actions[..k + 1][..k] == actions[..k];
  }

  // A category with events keeps them: whoever deletes it is refused.
  lemma {:induction false} RoutedStays(lokiSet: bool, actions: seq<Action>, n: nat, k: nat, c: string)
    requires n <= k <= |actions| && RoutedAt(lokiSet, actions, n, c)
    ensures KeepsNumbering(Run(lokiSet, actions[..n]).s.tables, Run(lokiSet, actions[..k]).s.tables, c)
    decreases k
  {
    hide Run; hide Next; hide Sound; hide Apply; hide Inv; hide HasEvents; hide Current; hide TriggersKnown;
    if n == k {
      EveryRunTriggers(lokiSet, actions[..n]);
    } else {
      var st := Run(lokiSet, actions[..k - 1]);
      RoutedStays(lokiSet, actions, n, k - 1, c);
      EveryRunSound(lokiSet, actions[..k - 1]);
      RunNext(lokiSet, actions, k - 1);
      var op := NextTables(st, actions[k - 1]);
      if op.Some? { OpKeepsNumbering(Run(lokiSet, actions[..n]).s.tables, st.s.tables, c, op.value); }
    }
  }

  // So an announcement for a category with events is for good.
  lemma RoutedForGood(lokiSet: bool, actions: seq<Action>, n: nat, c: string, v: nat)
    requires Announced(lokiSet, actions, n, c, v) && RoutedAt(lokiSet, actions, n, c)
    ensures AnnouncedForGood(lokiSet, actions, n, c, v)
  {
    assert n <= |actions|;
    hide Announced; hide Run;
    forall k | n <= k <= |actions| ensures c in Run(lokiSet, actions[..k]).s.tables.categories {
      RoutedStays(lokiSet, actions, n, k, c);
    }
  }

  lemma {:induction false} EveryRunForward(lokiSet: bool, actions: seq<Action>, n: nat, c: string, v: nat)
    requires AnnouncedForGood(lokiSet, actions, n, c, v)
    ensures Forward(Run(lokiSet, actions), |Run(lokiSet, actions[..n]).approvals|, c, v)
  {
    var init := actions[..|actions| - 1];
    var st := Run(lokiSet, init);
    assert Run(lokiSet, actions) == Next(st, actions[|init|]);
    assert actions[..|actions|] == actions;
    GoodForPrefix(lokiSet, actions, n, c, v, |actions|);
    if n < |init| { GoodForPrefix(lokiSet, actions, n, c, v, |init|); }
    hide Run; hide Next; hide Announceable; hide StaysIn; hide Sound; hide Forward;
    if n == |init| {
      assert actions[..n] == init;
      EveryRunTriggers(lokiSet, init);
      JustAnnounced(st, c, v);
    } else {
      assert init[..n] == actions[..n];
      EveryRunForward(lokiSet, init, n, c, v);
      EveryRunSound(lokiSet, init);
      NextForward(st, actions[|init|], |Run(lokiSet, actions[..n]).approvals|, c, v);
    }
  }

  lemma JustAnnounced(st: Sys, c: string, v: nat)
    requires TriggersKnown(st) && Inv(st.s.tables) && c != "" && Announceable(st.s.tables, Approval(c, v))
    ensures Forward(Next(st, Announce(Approval(c, v))), |st.approvals|, c, v)
  {
    hide Inv; hide Current; hide PhaseForward;
  }

  // Task i handles approval message m, and is in a call.
  ghost predicate HandlerCalls(st: Sys, i: nat, m: nat) {
    i < |st.tasks| && st.tasks[i].Replay? && st.tasks[i].trigger == ByApproval(m) && st.tasks[i].phase.Calling?
  }

  // That call is on an event of c, and the step it takes next leaves it judged by version v or later;
  // if that step fails it, the replay reports an error and does not acknowledge the approval.
  ghost predicate GoesForward(st: Sys, i: nat, a: Answer, c: string, v: nat)
    requires i < |st.tasks| && st.tasks[i].Replay? && st.tasks[i].phase.Calling?
  {
    var phase := st.tasks[i].phase;
    var c1 := CallStep(st.s, phase.call, a).1;
    var st' := ActOf(st, i, a);
    && phase.call.env.category == c && c1.env == phase.call.env && PcForward(c1.pc, v)
    && (c1.pc.Failed? ==> HasReported(st'.tasks[i], phase.replayed) && st'.s.approvalsAcked == st.s.approvalsAcked)
  }

  predicate HasReported(t: Task, replayed: nat) {
    t.Replay? && t.phase == Reporting(replayed, false)
  }

  // Main result, for whatever call the handler of that approval is in, at any later time.
  lemma ReplayNeverGoesBack(lokiSet: bool, actions: seq<Action>, n: nat, c: string, v: nat, i: nat, a: Answer)
    requires AnnouncedForGood(lokiSet, actions, n, c, v)
    requires HandlerCalls(Run(lokiSet, actions), i, |Run(lokiSet, actions[..n]).approvals|)
    ensures GoesForward(Run(lokiSet, actions), i, a, c, v)
  {
    var st := Run(lokiSet, actions);
    var m := |Run(lokiSet, actions[..n]).approvals|;
    EveryRunForward(lokiSet, actions, n, c, v);
    hide Run; hide AnnouncedForGood;
    var t := st.tasks[i];
    assert TaskForward(st.s, t, m, c, v);
    hide Forward; hide Floor; hide CallStep; hide TaskStep; hide RowsOfCategory; hide NextRow;
    CallForward(st.s, t.phase.call, a, c, v);
    CallCounts(st.s, t.phase.call, a);
    CallTouches(st.s, t.phase.call, a);
    CallingStep(st.s, t, a);
  }

  // For a category that has events when its version is announced nothing has to be said about
  // deletes: they are refused.
  lemma RoutedNeverGoesBack(lokiSet: bool, actions: seq<Action>, n: nat, c: string, v: nat, i: nat, a: Answer)
    requires Announced(lokiSet, actions, n, c, v) && RoutedAt(lokiSet, actions, n, c)
    requires HandlerCalls(Run(lokiSet, actions), i, |Run(lokiSet, actions[..n]).approvals|)
    ensures GoesForward(Run(lokiSet, actions), i, a, c, v)
  {
    RoutedForGood(lokiSet, actions, n, c, v);
    ReplayNeverGoesBack(lokiSet, actions, n, c, v, i, a);
  }

  // A replay that met an error, and has reported it or is about to.
  predicate Errored(t: Task) {
    t.Replay? && (t.phase.Reporting? || t.phase.Closed?) && !t.phase.ok
  }

  lemma ErrorStays(s: Shared, t: Task, a: Answer)
    requires Errored(t)
    ensures Errored(TaskStep(s, t, a).1) && TaskStep(s, t, a).0.approvalsAcked == s.approvalsAcked
  {
    hide NextRow; hide CallStep; hide PendingOf; hide IndexOf; hide Mark; hide Bump; hide Get;
    hide RegistryClient.Answer;
  }

  // A replay that met an error stays so, and no step of it acknowledges ...
  lemma {:induction false} ErrorNeverAcks(lokiSet: bool, actions: seq<Action>, n: nat, i: nat, a: Answer)
    requires n <= |actions| && i < |Run(lokiSet, actions[..n]).tasks|
    requires Errored(Run(lokiSet, actions[..n]).tasks[i])
    ensures var st := Run(lokiSet, actions);
      i < |st.tasks| && Errored(st.tasks[i]) && ActOf(st, i, a).s.approvalsAcked == st.s.approvalsAcked
  {
    if n == |actions| {
      assert actions[..n] == actions;
    } else {
      var init := actions[..|actions| - 1];
      assert init[..n] == actions[..n];
      ErrorNeverAcks(lokiSet, init, n, i, a);
      var st, last := Run(lokiSet, init), actions[|actions| - 1];
      assert Run(lokiSet, actions) == Next(st, last);
      hide Run; hide Errored; hide TaskStep;
      if last.Act? && last.task == i { ErrorStays(st.s, st.tasks[i], last.answer); }
    }
    hide Run; hide Next;
    ErrorStays(Run(lokiSet, actions).s, Run(lokiSet, actions).tasks[i], a);
  }

  // ... and an acknowledged approval has had a replay that got through to its end.
  ghost predicate AckedCompleted(st: Sys) {
    forall m | m in st.s.approvalsAcked :: Completed(st.tasks, m)
  }

  ghost predicate Completed(tasks: seq<Task>, m: nat) {
    exists i | 0 <= i < |tasks| ::
      tasks[i].Replay? && tasks[i].trigger == ByApproval(m) && tasks[i].phase.Closed? && tasks[i].phase.ok
  }

  lemma StepAcks(s: Shared, t: Task, a: Answer)
    requires CallOf(t).Some? ==> !CallOf(t).value.pc.Returned()
    ensures var (s', t') := TaskStep(s, t, a);
      && (t.Replay? && t.phase.Closed? ==> t' == t)
      && (s'.approvalsAcked == s.approvalsAcked
          || (t'.Replay? && t'.trigger.ByApproval? && t'.phase.Closed? && t'.phase.ok
              && s'.approvalsAcked == s.approvalsAcked + {t'.trigger.message}))
  {
    if CallOf(t).Some? {
      CallingStep(s, t, a);
      CallTouches(s, CallOf(t).value, a);
      hide CallStep; hide TaskStep; hide AfterStep;
    } else {
      hide NextRow; hide CallStep; hide PendingOf; hide IndexOf; hide Mark; hide Bump; hide Get;
      hide RegistryClient.Answer;
    }
  }

  lemma NextAcked(st: Sys, a: Action)
    requires Sound(st) && AckedCompleted(st)
    ensures AckedCompleted(Next(st, a))
  {
    var st' := Next(st, a);
    if a.Act? && a.task < |st.tasks| {
      assert TaskFits(st.messages, st.tasks[a.task]);
      hide Sound; hide TaskStep;
      StepAcks(st.s, st.tasks[a.task], a.answer);
      hide TaskFits; hide CallOf;
      if st'.s.approvalsAcked != st.s.approvalsAcked {
        assert Completed(st'.tasks, st'.tasks[a.task].trigger.message);
      }
      assert |st'.tasks| == |st.tasks| && forall i | 0 <= i < |st.tasks| && i != a.task :: st'.tasks[i] == st.tasks[i];
    } else {
      hide Sound; hide Apply; hide NewId;
      assert st'.s.approvalsAcked == st.s.approvalsAcked && |st.tasks| <= |st'.tasks|;
      assert forall i | 0 <= i < |st.tasks| :: st'.tasks[i] == st.tasks[i];
    }
    hide Next;
    forall m | Completed(st.tasks, m) ensures Completed(st'.tasks, m) {
      var i :| 0 <= i < |st.tasks| && st.tasks[i].Replay? && st.tasks[i].trigger == ByApproval(m)
        && st.tasks[i].phase.Closed? && st.tasks[i].phase.ok;
      assert st'.tasks[i] == st.tasks[i];
    }
  }

  lemma {:induction false} AckedMeansCompleted(lokiSet: bool, actions: seq<Action>)
    ensures AckedCompleted(Run(lokiSet, actions))
  {
    if actions != [] {
      AckedMeansCompleted(lokiSet, actions[..|actions| - 1]);
      EveryRunSound(lokiSet, actions[..|actions| - 1]);
      NextAcked(Run(lokiSet, actions[..|actions| - 1]), actions[|actions| - 1]);
    }
  }
}
