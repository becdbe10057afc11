/**
 The loop closed: events of one shape are quarantined, the classifier infers a schema from the
 cluster's samples, the proposal is approved, and the replay drains the category.
 */
module EndToEnd {
  import opened Prelude
  import opened SchemaInference
  import opened Envelopes
  import opened RegistryTables
  import opened RegistryClient
  import opened QuarantineTable
  import opened Normalizer
  import opened Origins
  import opened ReplayContract
  import opened Verdicts
  import R = Review
  import C = ClusterEngine

  // --- An approval without failures ---

  lemma CreateAlone(rs: R.Shared, req: R.Request, net: nat -> Outcome)
    requires req.approve && req.proposal < |rs.proposals| && rs.proposals[req.proposal].status == R.Pending
    requires net(0) == net(1) == Ok
    ensures var p := rs.proposals[req.proposal];
      var (tables, row) := CreateVersion(rs.tables, p.category, p.document, p.routing);
      R.RunAlone(rs, R.Review(req, R.Reading), net, 0) ==
        R.RunAlone(rs.(tables := tables, made := rs.made + [req.proposal]),
          R.Review(req, R.Finalizing(p.category, row.version, row.id)), net, 2)
  {
    hide CreateVersion; hide R.RunAlone; hide R.Finalize;
    var (s1, r1) := R.Step(rs, R.Review(req, R.Reading), net(0));
    R.AloneUnfolds(rs, R.Review(req, R.Reading), net, 0);
    R.AloneUnfolds(s1, r1, net, 1);
  }

  lemma FinalizeAlone(rs: R.Shared, req: R.Request, c: string, version: nat, schema: nat, net: nat -> Outcome)
    requires req.approve && req.proposal < |rs.proposals| && rs.proposals[req.proposal].status == R.Pending
    requires HasSchema(rs.tables, schema) && net(2) == net(3) == net(4) == Ok
    ensures var (rs', r') := R.RunAlone(rs, R.Review(req, R.Finalizing(c, version, schema)), net, 2);
      && r'.pc == R.ApprovedReply(c, version, schema) && rs'.tables == rs.tables
      && rs'.proposals == DecidedAs(rs.proposals, req, R.Approved, Some(schema))
      && rs'.audit == rs.audit + [R.AuditEntry(req.proposal, req.userId, R.Approved, req.notes)]
      && rs'.announced == rs.announced + [R.Announcement(c, version, schema, req.proposal, req.reviewer)]
  {
    hide HasSchema; hide R.RunAlone;
    var (s3, r3) := R.Step(rs, R.Review(req, R.Finalizing(c, version, schema)), net(2));
    var (s4, r4) := R.Step(s3, r3, net(3));
    var (s5, r5) := R.Step(s4, r4, net(4));
    R.AloneUnfolds(rs, R.Review(req, R.Finalizing(c, version, schema)), net, 2);
    R.AloneUnfolds(s3, r3, net, 3);
    R.AloneUnfolds(s4, r4, net, 4);
    R.AloneUnfolds(s5, r5, net, 5);
  }

  // The proposals once the request's has been decided.
  function DecidedAs(proposals: seq<R.Proposal>, req: R.Request, status: R.Status, resulting: Option<nat>)
    : seq<R.Proposal>
    requires req.proposal < |proposals|
  {
    proposals[req.proposal := proposals[req.proposal].(status := status, reviewedBy := req.reviewer, notes := req.notes,
                                                       resulting := resulting)]
  }

  // A review that rejects a pending proposal, with no call failing, settles it, writes the audit
  // entry, and creates and announces nothing.
  lemma RejectAlone(rs: R.Shared, req: R.Request, net: nat -> Outcome)
    requires !req.approve && req.proposal < |rs.proposals| && rs.proposals[req.proposal].status == R.Pending
    requires net(0) == net(1) == net(2) == Ok
    ensures R.RunAlone(rs, R.Review(req, R.Reading), net, 0) ==
      (rs.(proposals := DecidedAs(rs.proposals, req, R.Rejected, None),
           audit := rs.audit + [R.AuditEntry(req.proposal, req.userId, R.Rejected, req.notes)]),
       R.Review(req, R.RejectedReply))
  {
    hide R.RunAlone;
    var (s1, r1) := R.Step(rs, R.Review(req, R.Reading), net(0));
    var (s2, r2) := R.Step(s1, r1, net(1));
    var (s3, r3) := R.Step(s2, r2, net(2));
    R.AloneUnfolds(rs, R.Review(req, R.Reading), net, 0);
    R.AloneUnfolds(s1, r1, net, 1);
    R.AloneUnfolds(s2, r2, net, 2);
    R.AloneUnfolds(s3, r3, net, 3);
  }

  // A review that approves a pending proposal, with no call failing, creates its schema as the
  // next version of its category and announces it.
  lemma ApproveAlone(rs: R.Shared, req: R.Request, net: nat -> Outcome)
    requires req.approve && req.proposal < |rs.proposals| && rs.proposals[req.proposal].status == R.Pending
    requires net(0) == net(1) == net(2) == net(3) == net(4) == Ok
    ensures var p := rs.proposals[req.proposal];
      var (tables, row) := CreateVersion(rs.tables, p.category, p.document, p.routing);
      var (rs', r') := R.RunAlone(rs, R.Review(req, R.Reading), net, 0);
      && r'.pc == R.ApprovedReply(p.category, row.version, row.id)
      && rs'.tables == tables
      && rs'.proposals == DecidedAs(rs.proposals, req, R.Approved, Some(row.id))
      && rs'.audit == rs.audit + [R.AuditEntry(req.proposal, req.userId, R.Approved, req.notes)]
      && rs'.announced == rs.announced + [R.Announcement(p.category, row.version, row.id, req.proposal, req.reviewer)]
  {
    var p := rs.proposals[req.proposal];
    var (tables, row) := CreateVersion(rs.tables, p.category, p.document, p.routing);
    assert tables.schemas[|rs.tables.schemas|].id == row.id;
    assert HasSchema(tables, row.id);
    hide CreateVersion; hide HasSchema; hide R.RunAlone;
    CreateAlone(rs, req, net);
    FinalizeAlone(rs.(tables := tables, made := rs.made + [req.proposal]), req, p.category, row.version, row.id, net);
  }

  // --- A replay without failures ---

  function SchemaIn(c: string, row: SchemaRow): RegistrySchema {
    RegistrySchema(c, row.version, row.document, row.routing)
  }

  // This version of c is active, the cache holds no other, and it routes to postgres.
  ghost predicate Ready(s: Shared, c: string, active: SchemaRow) {
    && Inv(s.tables)
    && ActiveSchema(s.tables, c) == Some(active)
    && (c in s.cache ==> s.cache[c].schema == SchemaIn(c, active))
    && active.routing == Routing("postgres", [])
  }

  lemma LookUpReady(s: Shared, e: Envelope, active: SchemaRow, a: Answer)
    requires Ready(s, e.category, active) && a.fault == NoFault && Conforms(active.document, e.payload)
    ensures var (s', c') := LookUp(s, Call(e, Start), a);
      && c' == Call(e, Pc.Route(SchemaIn(e.category, active), 0)) && Ready(s', e.category, active)
      && s'.rows == s.rows && s'.finished == s.finished
  {
    ValidateIff(active.document, e.payload);
    ConformsToUsable(active.document, e.payload);
    hide Inv; hide Conforms; hide Validate; hide ActiveSchema;
  }

  // The rows of the events table after e has been stored under a version.
  function WithEvent(events: seq<EventRow>, active: SchemaRow, e: Envelope): seq<EventRow> {
    events + [EventRow(active.category, active.id, e)]
  }

  // The insert into the events table goes through, and nothing else changes.
  lemma InsertReady(s: Shared, e: Envelope, active: SchemaRow)
    requires Ready(s, e.category, active)
    ensures var (s', ok, done, used) := RouteAlone(s, e, ["postgres"], 0, Ok, Ok);
      && ok && done == 1 && used == 2 && Ready(s', e.category, active)
      && s' == s.(tables := s'.tables) && s'.tables.events == WithEvent(s.tables.events, active, e)
  {
    assert e.category in s.tables.categories;
    QueriesAgree(s.tables, e.category);
    var (categoryId, schemaId) := ResolveForInsert(s.tables, e.category).value;
    RegistryTables.RowsOfCategory(s.tables.schemas, categoryId);
    assert active.category == categoryId;
    assert categoryId in s.tables.categories.Values;
    assert HasSchema(s.tables, schemaId) by {
      var k :| 0 <= k < |s.tables.schemas| && s.tables.schemas[k] == active;
      assert s.tables.schemas[k].id == schemaId;
    }
    InsertKeepsInv(s.tables, categoryId, schemaId, e);
    assert ToPostgres("postgres");
    hide Inv; hide ToPostgres; hide BestActive; hide Current; hide HasSchema;
  }

  // One call on an envelope that the schema accepts is routed.
  lemma CallRoutes(s: Shared, e: Envelope, active: SchemaRow, net: nat -> Answer, i: nat)
    requires Ready(s, e.category, active) && Conforms(active.document, e.payload) && NoTrouble(net)
    ensures var (s', c', _) := RunCall(s, Call(e, Start), net, i);
      && c' == Call(e, Routed(SchemaIn(e.category, active))) && Ready(s', e.category, active)
      && s'.rows == s.rows && s'.finished == s.finished + [c']
      && s'.tables.events == WithEvent(s.tables.events, active, e)
  {
    var schema := SchemaIn(e.category, active);
    assert Destinations(schema.routing) == ["postgres"];
    hide LookUp; hide RouteAlone; hide RunCall; hide Conforms; hide RunFrom; hide Inv; hide ActiveSchema;
    hide Destinations;
    var s1 := LookUp(s, Call(e, Start), net(i)).0;
    RunFromStart(s, e, net, i);
    LookUpReady(s, e, active, net(i));
    LookUpTables(s, e, net(i));
    RouteRuns(s1, e, schema, 0, net, i + 1);
    InsertReady(s1, e, active);
    var s2 := RouteAlone(s1, e, ["postgres"], 0, Ok, Ok).0;
    FirstAndLast(s1, e, schema, net, i + 1);
    FirstAndLast(s2, e, schema, net, i + 3);
  }

  // Process does not remember: the same envelope, processed again, is stored again. So a redelivery
  // after a lost acknowledgement, or a replay after a lost mark, adds rows.
  lemma ProcessedTwiceStoredTwice(s: Shared, e: Envelope, active: SchemaRow, net: nat -> Answer, i: nat)
    requires Ready(s, e.category, active) && Conforms(active.document, e.payload) && NoTrouble(net)
    ensures var (s1, c1, j) := RunCall(s, Call(e, Start), net, i);
      var (s2, c2, _) := RunCall(s1, Call(e, Start), net, j);
      && c1.pc.Routed? && c2 == c1
      && s2.tables.events == WithEvent(WithEvent(s.tables.events, active, e), active, e)
  {
    var (s1, _, j) := RunCall(s, Call(e, Start), net, i);
    CallRoutes(s, e, active, net, i);
    hide RunCall; hide Ready; hide Conforms; hide NoTrouble;
    CallRoutes(s1, e, active, net, j);
  }

  lemma LookUpTables(s: Shared, e: Envelope, a: Answer)
    ensures LookUp(s, Call(e, Start), a).0.tables == s.tables
  {
    hide Get; hide Validate; hide Destinations; hide RegistryClient.Answer;
  }

  // The list has one destination.
  lemma FirstAndLast(s: Shared, e: Envelope, schema: RegistrySchema, net: nat -> Answer, i: nat)
    requires Destinations(schema.routing) == ["postgres"]
    ensures RunFrom(s, e, schema, 0, net, i) == RunCall(s, Call(e, Pc.Route(schema, 0)), net, i)
    ensures var c := Call(e, Routed(schema));
      RunFrom(s, e, schema, 1, net, i)
        == (s.(counts := s.counts.(routed := s.counts.routed + 1), finished := s.finished + [c]), c, i)
  {
    hide CallStep; hide Destinations;
  }

  // --- Draining ---

  // A pending row whose envelope the version accepts.
  ghost predicate Replayable(row: QRow, c: string, active: SchemaRow) {
    && Decode(row.raw).Some?
    && var e := Decode(row.raw).value;
       e.category == c && Conforms(active.document, e.payload)
  }

  lemma ReplayOneRoutes(s: Shared, row: QRow, c: string, active: SchemaRow, net: nat -> Answer, i: nat)
    requires Ready(s, c, active) && Replayable(row, c, active) && NoTrouble(net)
    ensures var (s', ok, failed, _) := ReplayOneAlone(s, row, net, i);
      && ok && !failed && Ready(s', c, active)
      && Drained(s, s', [row], active)
  {
    var e := Decode(row.raw).value;
    var (s1, c1, j) := RunCall(s, Call(e, Start), net, i);
    CallRoutes(s, e, active, net, i);
    hide Ready; hide RunCall; hide Decode; hide Conforms; hide Mark; hide Replayable;
    assert net(j).outcome == Ok;
    var s' := ReplayOneAlone(s, row, net, i).0;
    assert s'.tables == s1.tables && s'.cache == s1.cache && s'.finished == s1.finished;
    ReadyOnly(s1, s', c, active);
  }

  lemma ReadyOnly(s: Shared, s': Shared, c: string, active: SchemaRow)
    requires Ready(s, c, active) && s'.tables == s.tables && s'.cache == s.cache
    ensures Ready(s', c, active)
  {
    hide Inv; hide ActiveSchema;
  }

  // The rows `left` have been replayed: their calls are all routed, and the event rows that were
  // added are their envelopes, in order, under the category and id of the active version.
  ghost predicate Drained(s: Shared, s': Shared, left: seq<QRow>, active: SchemaRow) {
    && |s'.tables.events| == |s.tables.events| + |left| && s.tables.events == s'.tables.events[..|s.tables.events|]
    && (forall k | 0 <= k < |left| :: StoredAs(left[k], s'.tables.events[|s.tables.events| + k], active))
    && |s'.finished| == |s.finished| + |left| && s.finished == s'.finished[..|s.finished|]
    && (forall k | |s.finished| <= k < |s'.finished| :: s'.finished[k].pc.Routed?)
  }

  ghost predicate StoredAs(row: QRow, event: EventRow, active: SchemaRow) {
    && Decode(row.raw).Some?
    && event == EventRow(active.category, active.id, Decode(row.raw).value)
  }

  lemma DrainedMore(s: Shared, s1: Shared, s': Shared, left: seq<QRow>, active: SchemaRow)
    requires left != [] && Drained(s, s1, [left[0]], active) && Drained(s1, s', left[1..], active)
    ensures Drained(s, s', left, active)
  {
    hide StoredAs;
    var n := |s.tables.events|;
    assert s1.tables.events[n] == s'.tables.events[n];
    assert StoredAs([left[0]][0], s1.tables.events[n], active);
    forall k | 0 <= k < |left| ensures StoredAs(left[k], s'.tables.events[n + k], active) {
      if k > 0 { assert left[1..][k - 1] == left[k]; }
    }
    assert s.tables.events == s'.tables.events[..n] && s.finished == s'.finished[..|s.finished|];
    assert s1.finished[|s.finished|] == s'.finished[|s.finished|];
  }

  lemma {:induction false} RowsDrain(s: Shared, trigger: Trigger, c: string, active: SchemaRow, left: seq<QRow>,
                                     count: nat, net: nat -> Answer, i: nat)
    requires Ready(s, c, active) && NoTrouble(net)
    requires forall k | 0 <= k < |left| :: Replayable(left[k], c, active)
    ensures var (s', p, _) := RunReplay(s, trigger, c, NextRow(left, count), net, i);
      p == Reporting(count + |left|, true) && Drained(s, s', left, active)
    decreases |left|
  {
    hide RunReplay; hide NextRow; hide ReplayOneAlone; hide Ready; hide NoTrouble; hide Replayable;
    if left == [] {
      ReplayEnds(s, trigger, c, count, net, i);
    } else {
      hide Drained;
      assert left == [left[0]] + left[1..];
      ReplayOneRuns(s, trigger, c, left[0], left[1..], count, net, i);
      ReplayOneRoutes(s, left[0], c, active, net, i);
      var (s1, _, _, j) := ReplayOneAlone(s, left[0], net, i);
      RowsDrain(s1, trigger, c, active, left[1..], count + 1, net, j);
      DrainedMore(s, s1, RunReplay(s1, trigger, c, NextRow(left[1..], count + 1), net, j).0, left, active);
    }
  }

  // Every row that stores an envelope of the category has been replayed.
  ghost predicate AllReplayed(rows: seq<QRow>, c: string) {
    forall j | 0 <= j < |rows| && Decode(rows[j].raw).Some? && Decode(rows[j].raw).value.category == c ::
      rows[j].status == Replayed
  }

  // A replay whose calls were all routed leaves no row of the category that has not been replayed.
  lemma NonePending(ms: Messages, s: Shared, s': Shared, c: string, active: SchemaRow)
    requires AllStored(ms, s.rows)
    requires RowsRetried(s.rows, s'.rows, c) && CalledFor(ms, PendingOf(s.rows, c), s, s')
    requires Drained(s, s', PendingOf(s.rows, c), active)
    ensures AllReplayed(s'.rows, c) && PendingOf(s'.rows, c) == []
  {
    var pending := PendingOf(s.rows, c);
    PendingMembers(s.rows, c);
    AllStoredWait(ms, s.rows, c);
    hide PendingOf; hide CategoryText; hide Stores; hide Decode; hide IsPending; hide WaitingRows;
    hide AllStored; hide StoredAs;
    forall j | 0 <= j < |s'.rows| && Decode(s'.rows[j].raw).Some? && Decode(s'.rows[j].raw).value.category == c
      ensures s'.rows[j].status == Replayed
    {
      if Waits(s.rows[j], c) {
        assert s.rows[j] in s.rows;
        var k :| 0 <= k < |pending| && pending[k] == s.rows[j];
        assert Retried(s.rows[j], s'.rows[j], true);
      } else {
        assert s'.rows[j] == s.rows[j];
      }
    }
    forall j | 0 <= j < |s'.rows| ensures !IsPending(s'.rows[j], c) {
      if Waits(s.rows[j], c) {
        var k :| 0 <= k < |pending| && pending[k] == s.rows[j];
        assert Retried(s.rows[j], s'.rows[j], true);
        ReplayedIsNotPending(s'.rows[j], c);
      } else {
        assert s'.rows[j] == s.rows[j];
      }
    }
    NothingPending(s'.rows, c);
  }

  lemma ReplayedIsNotPending(row: QRow, c: string)
    requires row.status == Replayed
    ensures !IsPending(row, c)
  {
  }

  // --- The main theorem ---

  // The rows that wait for c store objects of one shape.
  ghost predicate OneShapePending(rows: seq<QRow>, k: C.Key) {
    forall j | 0 <= j < |rows| && IsPending(rows[j], k.hint) && Decode(rows[j].raw).Some? ::
      var e := Decode(rows[j].raw).value;
      e.payload.Some? && ShapeKey(e.payload.value) == k.shape
  }

  lemma ShapeReplayable(ms: Messages, rows: seq<QRow>, k: C.Key, active: SchemaRow, n: nat)
    requires AllStored(ms, rows) && OneShapePending(rows, k) && C.AcceptsShape(active.document, k)
    requires n < |PendingOf(rows, k.hint)|
    ensures Replayable(PendingOf(rows, k.hint)[n], k.hint, active)
  {
    var row := PendingOf(rows, k.hint)[n];
    PendingMembers(rows, k.hint);
    assert row in PendingOf(rows, k.hint);
    hide PendingOf; hide ShapeKey; hide Accepts;
    var j :| 0 <= j < |rows| && rows[j] == row;
    assert Stored(ms, rows[j]);
    DecodeEncode(Decode(row.raw).value);
    hide Decode; hide Encode;
    assert Accepts(active.document, Decode(row.raw).value.payload.value);
    AcceptsIff(active.document, Decode(row.raw).value.payload.value);
  }

  // The handler of the approval, from the invalidation on.
  lemma HandlerReplays(s: Shared, trigger: Trigger, c: string, net: nat -> Answer)
    requires NoTrouble(net)
    ensures RunReplay(s, trigger, c, Invalidating, net, 0) ==
      RunReplay(s.(cache := s.cache - {c}), trigger, c, NextRow(PendingOf(s.rows, c), 0), net, 2)
    ensures RunReplay(s, trigger, c, Invalidating, net, 0)
      == RunReplay(s.(cache := s.cache - {c}), trigger, c, Querying, net, 1)
  {
    ReplayInvalidates(s, trigger, c, net);
    ReplayQueries(s.(cache := s.cache - {c}), trigger, c, net, 1);
    hide RunReplay; hide NextRow; hide PendingOf;
    assert net(1).outcome == Ok;
  }

  // The registry holds the classifier's proposal, and the request approves it.
  ghost predicate Approves(rs: R.Shared, req: R.Request, p: C.Proposal) {
    && req.approve && req.proposal < |rs.proposals|
    && rs.proposals[req.proposal].status == R.Pending
    && rs.proposals[req.proposal].category == p.category
    && rs.proposals[req.proposal].document == p.document
    && rs.proposals[req.proposal].routing == p.routing
  }

  function TablesAfter(rs: R.Shared, req: R.Request, net: nat -> Outcome): Tables {
    R.RunAlone(rs, R.Review(req, R.Reading), net, 0).0.tables
  }

  // Handling the approval replays every row that waits for c and leaves none waiting; what it adds
  // to the events table are exactly their envelopes, in order, under the active version.
  ghost predicate Drains(s: Shared, c: string, active: SchemaRow, trigger: Trigger, net: nat -> Answer) {
    var pending := PendingOf(s.rows, c);
    var (s', phase, _) := RunReplay(s, trigger, c, Invalidating, net, 0);
    && phase == Reporting(|pending|, true)
    && WaitingRows(pending, s.rows, c) && AllReplayed(s'.rows, c) && PendingOf(s'.rows, c) == []
    && Drained(s, s', pending, active)
  }

  // The version that the approval of p makes active in its category.
  lemma ApprovedIsActive(rs: R.Shared, req: R.Request, p: C.Proposal, net: nat -> Outcome)
    requires Inv(rs.tables) && Approves(rs, req, p)
    requires net(0) == net(1) == net(2) == net(3) == net(4) == Ok
    ensures var approved := ActiveSchema(TablesAfter(rs, req, net), p.category);
      && approved.Some?
      && approved.value.version == Current(rs.tables, p.category) + 1
      && approved.value.document == p.document && approved.value.routing == p.routing
  {
    ApproveAlone(rs, req, net);
    CreateVersionEffect(rs.tables, p.category, p.document, p.routing);
    hide R.RunAlone; hide CreateVersion; hide Inv; hide ActiveSchema; hide Current;
  }

  // Main result. A heuristic proposal for a cluster of a non-empty category, from any run of the
  // classifier, is approved and thereby becomes the category's next version. If that version is
  // still the active one when the approval is handled, whatever else has happened to the tables, if
  // everything that waits for the category then has the cluster's shape, and no call fails, the
  // replay drains it.
  lemma ApprovedSchemaDrains(threshold: int, acts: seq<C.Action>, p: C.Proposal, k: C.Key,
                             rs: R.Shared, req: R.Request, rnet: nat -> Outcome,
                             ms: Messages, s: Shared, active: SchemaRow, message: nat, net: nat -> Answer)
    requires p in C.Run(threshold, acts).s.proposals && p.source == C.Gathered(k) && p.heuristic && k.hint != ""
    requires Inv(rs.tables) && Approves(rs, req, p)
    requires rnet(0) == rnet(1) == rnet(2) == rnet(3) == rnet(4) == Ok
    requires ActiveSchema(TablesAfter(rs, req, rnet), k.hint) == Some(active)
    requires Inv(s.tables) && ActiveSchema(s.tables, k.hint) == Some(active)
    requires TableSound(ms, s.rows) && OneShapePending(s.rows, k) && NoTrouble(net)
    ensures active.version == Current(rs.tables, k.hint) + 1 && active.document == p.document
    ensures Drains(s, k.hint, active, ByApproval(message), net)
  {
    C.EveryRunSound(threshold, acts);
    assert C.ProposalFits(p);
    hide C.Run; hide C.Sound; hide Inv; hide TablesAfter; hide Drains; hide ActiveSchema; hide NoTrouble;
    hide Current; hide C.AcceptsShape; hide TableSound; hide OneShapePending;
    ApprovedIsActive(rs, req, p, rnet);
    DrainReady(ms, s, k, active, ByApproval(message), net);
  }

  lemma DrainReady(ms: Messages, s: Shared, k: C.Key, active: SchemaRow, trigger: Trigger, net: nat -> Answer)
    requires Inv(s.tables) && ActiveSchema(s.tables, k.hint) == Some(active)
      && active.routing == Routing("postgres", [])
    requires C.AcceptsShape(active.document, k)
    requires TableSound(ms, s.rows) && OneShapePending(s.rows, k) && NoTrouble(net)
    ensures Drains(s, k.hint, active, trigger, net)
  {
    var c := k.hint;
    var s0, pending := s.(cache := s.cache - {c}), PendingOf(s.rows, c);
    TableSoundMeans(ms, s.rows);
    hide RunReplay; hide NextRow; hide PendingOf; hide NoTrouble; hide C.AcceptsShape; hide TableSound;
    hide OneShapePending; hide AllStored; hide RowsRetried; hide WaitingRows; hide AllReplayed; hide CalledFor;
    hide Replayable; hide DistinctRows; hide Count; hide Inv; hide ActiveSchema;
    assert Ready(s0, c, active);
    hide Ready;
    HandlerReplays(s, trigger, c, net);
    forall j | 0 <= j < |pending| ensures Replayable(pending[j], c, active) {
      ShapeReplayable(ms, s.rows, k, active, j);
    }
    RowsDrain(s0, trigger, c, active, pending, 0, net, 2);
    ReplayCategoryContract(ms, s0, trigger, c, net, 1, |pending|);
    var s' := RunReplay(s, trigger, c, Invalidating, net, 0).0;
    assert |s'.rows| == |s0.rows| by { RetriedLength(s0.rows, s'.rows, c); }
    AllStoredWait(ms, s.rows, c);
    NonePending(ms, s0, s', c, active);
    assert Drained(s, s', pending, active) by { hide StoredAs; }
  }

  lemma RetriedLength(rows: seq<QRow>, rows': seq<QRow>, c: string)
    requires RowsRetried(rows, rows', c)
    ensures |rows'| == |rows|
  {
  }
}
