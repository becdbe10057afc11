/**
 The review protocol (internal/registry/handlers.go:141-159 and 240-301 over
 internal/registry/store.go:299-362): read the proposal, create the version, finalise under a
 guard, write the audit entry, announce. Every call is one atomic step, which may fail, or take
 effect and be reported as failed; any number of reviews interleave with each other and with
 administrators.
 */
module Review {
  import opened Prelude
  import opened SchemaInference
  import opened Envelopes
  import opened RegistryTables

  datatype Status = Pending | Approved | Rejected

  datatype Proposal = Proposal(category: string, document: Schema, routing: Routing,
                               status: Status, reviewedBy: string, notes: string, resulting: Option<nat>)

  datatype AuditEntry = AuditEntry(proposal: nat, userId: Option<string>, action: Status, notes: string)

  // A schema.approved event.
  datatype Announcement = Announcement(category: string, version: nat, schema: nat, proposal: nat, approvedBy: string)

  // Proposals are numbered in order of creation. `made` lists, for each version that a review
  // created, the proposal it was created for.
  datatype Shared = Shared(tables: Tables, proposals: seq<Proposal>, audit: seq<AuditEntry>,
                           announced: seq<Announcement>, made: seq<nat>)

  datatype Request = Request(proposal: nat, approve: bool, reviewer: string, userId: Option<string>, notes: string)

  // Where a review stands, with what it has in its local variables.
  datatype Pc =
    | Reading
    | Rejecting
    | Creating(category: string, document: Schema, routing: Routing)
    | Finalizing(category: string, version: nat, schema: nat)
    | Auditing(category: string, version: nat, schema: nat)
    | Publishing(category: string, version: nat, schema: nat)
    | AuditingReject
    // Replies:
    | Refused(code: nat)
    | RejectFailed(took: bool)        // `took`: the failed call took effect all the same
    | CreateFailed(took: bool)
    | FinalizeFailed(category: string, version: nat, schema: nat, took: bool)
    | ApprovedReply(category: string, version: nat, schema: nat)
    | RejectedReply
  {
    predicate Replied() {
      Refused? || RejectFailed? || CreateFailed? || FinalizeFailed? || ApprovedReply? || RejectedReply?
    }

    function StepsLeft(): nat {
      if Replied() then 0
      else if Publishing? || AuditingReject? then 1
      else if Auditing? || Rejecting? then 2
      else if Finalizing? then 3
      else if Creating? then 4
      else 5
    }
  }

  datatype Review = Review(req: Request, pc: Pc)

  function Verdict(req: Request): Status {
    if req.approve then Approved else Rejected
  }

  // UPDATE ... WHERE id = $1 AND status = 'pending', with the foreign key on the schema.
  function Finalize(s: Shared, req: Request, resulting: Option<nat>): Option<Shared> {
    if req.proposal < |s.proposals| && s.proposals[req.proposal].status == Pending
       && (resulting.Some? ==> HasSchema(s.tables, resulting.value))
    then
      var p := s.proposals[req.proposal].(status := Verdict(req), reviewedBy := req.reviewer, notes := req.notes,
        resulting := resulting);
      Some(s.(proposals := s.proposals[req.proposal := p]))
    else None
  }

  // The next external call of a review.
  function Step(s: Shared, r: Review, o: Outcome): (Shared, Review) {
    var req := r.req;
    match r.pc
    case Reading =>
      if !o.Ok? then (s, r.(pc := Refused(500)))
      else if req.proposal >= |s.proposals| then (s, r.(pc := Refused(404)))
      else
        var p := s.proposals[req.proposal];
        if p.status != Pending then (s, r.(pc := Refused(400)))
        else if !req.approve then (s, r.(pc := Rejecting))
        else (s, r.(pc := Creating(p.category, p.document, p.routing)))
    case Rejecting =>
      (match if o.TookEffect() then Finalize(s, req, None) else None
       case Some(s') => (s', r.(pc := if o.Ok? then AuditingReject else RejectFailed(true)))
       case None => (s, r.(pc := RejectFailed(false))))
    case AuditingReject =>
      (if o.TookEffect() then s.(audit := s.audit + [AuditEntry(req.proposal, req.userId, Rejected, req.notes)]) else s,
       r.(pc := RejectedReply))
    case Creating(category, document, routing) =>
      if !o.TookEffect() then (s, r.(pc := CreateFailed(false))) else
        var (tables, row) := CreateVersion(s.tables, category, document, routing);
        (s.(tables := tables, made := s.made + [req.proposal]),
         r.(pc := if o.Ok? then Finalizing(category, row.version, row.id) else CreateFailed(true)))
    case Finalizing(category, version, schema) =>
      (match if o.TookEffect() then Finalize(s, req, Some(schema)) else None
       case Some(s') =>
         (s', r.(pc := if o.Ok? then Auditing(category, version, schema)
                       else FinalizeFailed(category, version, schema, true)))
       case None => (s, r.(pc := FinalizeFailed(category, version, schema, false))))
    case Auditing(category, version, schema) =>
      (if o.TookEffect() then s.(audit := s.audit + [AuditEntry(req.proposal, req.userId, Approved, req.notes)]) else s,
       r.(pc := Publishing(category, version, schema)))
    case Publishing(category, version, schema) =>
      (if o.TookEffect()
       then s.(announced := s.announced + [Announcement(category, version, schema, req.proposal, req.reviewer)]) else s,
       r.(pc := ApprovedReply(category, version, schema)))
    case _ => (s, r)
  }

  // A review that runs alone until it replies; net(i) is the outcome of its i-th call.
  function RunAlone(s: Shared, r: Review, net: nat -> Outcome, i: nat): (Shared, Review)
    decreases r.pc.StepsLeft()
  {
    if r.pc.Replied() then (s, r) else
      var (s', r') := Step(s, r, net(i));
      RunAlone(s', r', net, i + 1)
  }

  lemma AloneUnfolds(s: Shared, r: Review, net: nat -> Outcome, i: nat)
    ensures RunAlone(s, r, net, i) ==
      if r.pc.Replied() then (s, r) else RunAlone(Step(s, r, net(i)).0, Step(s, r, net(i)).1, net, i + 1)
  {
    hide Step;
  }

  // The registry service, with its Postgres tables as fields.
  class RegistryServer {
    var tables: Tables
    var proposals: seq<Proposal>
    var audit: seq<AuditEntry>
    var announced: seq<Announcement>
    ghost var made: seq<nat>

    ghost function State(): Shared
      reads this
    {
      Shared(tables, proposals, audit, announced, made)
    }

    constructor ()
      ensures State() == Shared(EMPTY, [], [], [], [])
    {
      tables, proposals, audit, announced, made := EMPTY, [], [], [], [];
    }

    // UPDATE schemas SET is_active = false WHERE category_id = $1
    method DeactivateVersions(category: nat)
      modifies this`tables
      ensures tables == old(tables).(schemas := Deactivate(old(tables).schemas, category))
    {
      var rows := tables.schemas;
      for i := 0 to |rows|
        invariant |rows| == |tables.schemas|
        invariant forall j | 0 <= j < i :: rows[j] == Deactivate(tables.schemas, category)[j]
        invariant forall j | i <= j < |rows| :: rows[j] == tables.schemas[j]
      {
        if rows[i].category == category {
          rows := rows[i := rows[i].(active := false)];
        }
      }
      assert rows == Deactivate(tables.schemas, category);
      tables := tables.(schemas := rows);
    }

    // SELECT MAX(version) FROM schemas WHERE category_id = $1, or 0
    method LatestVersion(category: nat) returns (latest: nat)
      ensures latest == MaxVersion(tables.schemas, category, false)
    {
      latest := 0;
      for i := 0 to |tables.schemas|
        invariant latest == MaxVersion(tables.schemas[..i], category, false)
      {
        assert tables.schemas[..i + 1][..i] == tables.schemas[..i];
        if tables.schemas[i].category == category && tables.schemas[i].version > latest {
          latest := tables.schemas[i].version;
        }
      }
      assert tables.schemas[..|tables.schemas|] == tables.schemas;
    }

    method CreateSchemaVersion(category: string, document: Schema, routing: Routing) returns (row: SchemaRow)
      modifies this`tables
      ensures (tables, row) == CreateVersion(old(tables), category, document, routing)
    {
      if category !in tables.categories {
        tables := tables.(categories := tables.categories[category := tables.minted], minted := tables.minted + 1);
      }
      var id := tables.categories[category];
      ghost var before := tables.schemas;
      DeactivateVersions(id);
      var latest := LatestVersion(id);
      SameLatest(before, id);
      row := SchemaRow(tables.minted, id, latest + 1, document, routing, true);
      tables := tables.(schemas := tables.schemas + [row], minted := tables.minted + 1);
    }

    lemma {:induction false} SameLatest(rows: seq<SchemaRow>, category: nat)
      ensures MaxVersion(Deactivate(rows, category), category, false) == MaxVersion(rows, category, false)
    {
      if rows != [] {
        var init := rows[..|rows| - 1];
        assert Deactivate(rows, category)[..|init|] == Deactivate(init, category);
        SameLatest(init, category);
      }
    }

    method FinalizeProposal(req: Request, resulting: Option<nat>) returns (ok: bool)
      modifies this`proposals
      ensures ok <==> Finalize(old(State()), req, resulting).Some?
      ensures State() == if ok then Finalize(old(State()), req, resulting).value else old(State())
    {
      ok := req.proposal < |proposals| && proposals[req.proposal].status == Pending
        && (resulting.Some? ==> HasSchema(tables, resulting.value));
      if ok {
        var p := proposals[req.proposal];
        proposals := proposals[req.proposal := p.(status := if req.approve then Approved else Rejected,
                                                  reviewedBy := req.reviewer, notes := req.notes,
                                                    resulting := resulting)];
      }
    }

    // handleReview; the result is where it stopped, which is its reply.
    method HandleReview(req: Request, net: nat -> Outcome) returns (reply: Pc)
      modifies this
      ensures (State(), Review(req, reply)) == RunAlone(old(State()), Review(req, Reading), net, 0)
    {
      hide RunAlone; hide Finalize; hide CreateVersion;
      AloneUnfolds(State(), Review(req, Reading), net, 0);
      if !net(0).Ok? || req.proposal >= |proposals| || proposals[req.proposal].status != Pending {
        reply := Refused(if !net(0).Ok? then 500 else if req.proposal >= |proposals| then 404 else 400);
        AloneUnfolds(State(), Review(req, reply), net, 1);
        return;
      }
      var p := proposals[req.proposal];
      if req.approve {
        reply := Approve(req, p.category, p.document, p.routing, net);
      } else {
        reply := Reject(req, net);
      }
    }

    // Its second half, for a rejection ...
    method Reject(req: Request, net: nat -> Outcome) returns (reply: Pc)
      modifies this
      ensures (State(), Review(req, reply)) == RunAlone(old(State()), Review(req, Rejecting), net, 1)
    {
      hide RunAlone; hide Finalize; hide CreateVersion;
      AloneUnfolds(State(), Review(req, Rejecting), net, 1);
      var rejected := false;
      if net(1).TookEffect() { rejected := FinalizeProposal(req, None); }
      if !rejected || !net(1).Ok? {
        reply := RejectFailed(rejected);
        AloneUnfolds(State(), Review(req, reply), net, 2);
        return;
      }
      AloneUnfolds(State(), Review(req, AuditingReject), net, 2);
      if net(2).TookEffect() { audit := audit + [AuditEntry(req.proposal, req.userId, Rejected, req.notes)]; }
      reply := RejectedReply;
      AloneUnfolds(State(), Review(req, reply), net, 3);
    }

    // ... and for an approval: create the version, finalise, audit, announce.
    method Approve(req: Request, category: string, document: Schema, routing: Routing, net: nat -> Outcome)
      returns (reply: Pc)
      modifies this
      ensures (State(), Review(req, reply))
        == RunAlone(old(State()), Review(req, Creating(category, document, routing)), net, 1)
    {
      hide RunAlone; hide Finalize; hide CreateVersion;
      AloneUnfolds(State(), Review(req, Creating(category, document, routing)), net, 1);
      if !net(1).TookEffect() {
        reply := CreateFailed(false);
        AloneUnfolds(State(), Review(req, reply), net, 2);
        return;
      }
      var row := CreateSchemaVersion(category, document, routing);
      made := made + [req.proposal];
      if !net(1).Ok? {
        reply := CreateFailed(true);
        AloneUnfolds(State(), Review(req, reply), net, 2);
        return;
      }
      AloneUnfolds(State(), Review(req, Finalizing(category, row.version, row.id)), net, 2);
      var approved := false;
      if net(2).TookEffect() { approved := FinalizeProposal(req, Some(row.id)); }
      if !approved || !net(2).Ok? {
        reply := FinalizeFailed(category, row.version, row.id, approved);
        AloneUnfolds(State(), Review(req, reply), net, 3);
        return;
      }
      reply := Announce(req, category, row, net);
    }

    method Announce(req: Request, category: string, row: SchemaRow, net: nat -> Outcome) returns (reply: Pc)
      modifies this`audit, this`announced
      ensures (State(), Review(req, reply))
        == RunAlone(old(State()), Review(req, Auditing(category, row.version, row.id)), net, 3)
    {
      hide RunAlone; hide Finalize; hide CreateVersion;
      AloneUnfolds(State(), Review(req, Auditing(category, row.version, row.id)), net, 3);
      if net(3).TookEffect() { audit := audit + [AuditEntry(req.proposal, req.userId, Approved, req.notes)]; }
      AloneUnfolds(State(), Review(req, Publishing(category, row.version, row.id)), net, 4);
      if net(4).TookEffect() {
        announced := announced + [Announcement(category, row.version, row.id, req.proposal, req.reviewer)];
      }
      reply := ApprovedReply(category, row.version, row.id);
      AloneUnfolds(State(), Review(req, reply), net, 5);
    }
  }

  // --- Interleaved runs ---

  datatype Sys = Sys(shared: Shared, reviews: seq<Review>)

  datatype Action =
    | Begin(req: Request)                                                 // a review request arrives
    | Advance(review: nat, outcome: Outcome)                              // one call of one review
    | Propose(category: string, document: Schema, routing: Routing)
    | AdminCreate(category: string, document: Schema, routing: Routing)
    | AdminDelete(category: string)
    | RouteEvent(categoryId: nat, schema: nat, envelope: Envelope)          // the normalizer inserts a row

  // Deleting a category clears the references of proposals to its schemas.
  function ClearReferences(proposals: seq<Proposal>, tables: Tables): (r: seq<Proposal>)
    ensures |r| == |proposals|
    ensures forall i | 0 <= i < |r| :: r[i] == proposals[i].(resulting := r[i].resulting)
  {
    seq(|proposals|, i requires 0 <= i < |proposals| =>
      if proposals[i].resulting.Some? && !HasSchema(tables, proposals[i].resulting.value)
      then proposals[i].(resulting := None) else proposals[i])
  }

  function Next(st: Sys, a: Action): Sys {
    var s := st.shared;
    match a
    case Begin(req) => st.(reviews := st.reviews + [Review(req, Reading)])
    case Advance(i, outcome) =>
      if i < |st.reviews| then
        var (s', r') := Step(s, st.reviews[i], outcome);
        Sys(s', st.reviews[i := r'])
      else st
    case Propose(category, document, routing) =>
      st.(shared := s.(proposals := s.proposals + [Proposal(category, document, routing, Pending, "", "", None)]))
    case AdminCreate(category, document, routing) =>
      st.(shared := s.(tables := CreateVersion(s.tables, category, document, routing).0))
    case AdminDelete(category) =>
      (match DeleteCategory(s.tables, category)
       case Deleted(tables) => st.(shared := s.(tables := tables, proposals := ClearReferences(s.proposals, tables)))
       case _ => st)
    case RouteEvent(category, schema, e) =>
      (match InsertEvent(s.tables, category, schema, e)
       case Some(tables) => st.(shared := s.(tables := tables))
       case None => st)
  }

  const INITIAL := Sys(Shared(EMPTY, [], [], [], []), [])

  function Run(actions: seq<Action>): Sys {
    if actions == [] then INITIAL else Next(Run(actions[..|actions| - 1]), actions[|actions| - 1])
  }
}
