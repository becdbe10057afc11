// What the review protocol keeps under any interleaving of reviews and administrators.
module ReviewProtocol {
  import opened Prelude
  import opened SchemaInference
  import opened RegistryTables
  import opened Review

  // --- One decision per proposal ---

  // The review finalised its proposal.
  predicate Won(pc: Pc) {
    || pc.Auditing? || pc.Publishing? || pc.AuditingReject? || pc.ApprovedReply? || pc.RejectedReply?
    || (pc.RejectFailed? && pc.took) || (pc.FinalizeFailed? && pc.took)
  }

  // Where a review may stand, given what was asked of it.
  ghost predicate PcFits(r: Review) {
    && (r.pc.Rejecting? || r.pc.RejectFailed? || r.pc.AuditingReject? || r.pc.RejectedReply? ==> !r.req.approve)
    && (r.pc.Creating? || r.pc.CreateFailed? || r.pc.Finalizing? || r.pc.FinalizeFailed? || r.pc.Auditing?
        || r.pc.Publishing? || r.pc.ApprovedReply?
        ==> r.req.approve)
  }

  // The proposal carries this review's decision, reviewer and notes.
  ghost predicate Decided(proposals: seq<Proposal>, req: Request) {
    && req.proposal < |proposals|
    && var p := proposals[req.proposal];
       && p.status == (if req.approve then Approved else Rejected)
       && p.reviewedBy == req.reviewer && p.notes == req.notes
  }

  ghost predicate Decisions(st: Sys) {
    && (forall i | 0 <= i < |st.reviews| :: PcFits(st.reviews[i]))
    && (forall i | 0 <= i < |st.reviews| && Won(st.reviews[i].pc) :: Decided(st.shared.proposals, st.reviews[i].req))
    && (forall i, j | 0 <= i < |st.reviews| && 0 <= j < |st.reviews| && Won(st.reviews[i].pc) && Won(st.reviews[j].pc)
          && st.reviews[i].req.proposal == st.reviews[j].req.proposal :: i == j)
  }

  // Once a proposal has left pending, its decision, reviewer and notes are settled.
  ghost predicate Settled(before: seq<Proposal>, after: seq<Proposal>) {
    && |before| <= |after|
    && forall p | 0 <= p < |before| && before[p].status != Pending ::
         after[p].status == before[p].status && after[p].reviewedBy == before[p].reviewedBy
           && after[p].notes == before[p].notes
  }

  lemma StepDecides(s: Shared, r: Review, o: Outcome)
    requires PcFits(r)
    ensures var (s', r') := Step(s, r, o);
      && PcFits(r') && r'.req == r.req
      && Settled(s.proposals, s'.proposals)
      && (Won(r.pc) ==> Won(r'.pc) && s'.proposals == s.proposals)
      && (Won(r'.pc) && !Won(r.pc) ==>
            && r.req.proposal < |s.proposals| && s.proposals[r.req.proposal].status == Pending
            && Decided(s'.proposals, r.req)
            && forall p | 0 <= p < |s.proposals| && p != r.req.proposal :: s'.proposals[p] == s.proposals[p])
      && (!Won(r'.pc) ==> s'.proposals == s.proposals)
  {
  }

  lemma NextDecides(st: Sys, a: Action)
    requires Decisions(st)
    ensures Decisions(Next(st, a)) && Settled(st.shared.proposals, Next(st, a).shared.proposals)
  {
    if a.Advance? && a.review < |st.reviews| {
      StepDecides(st.shared, st.reviews[a.review], a.outcome);
      AdvanceDecides(st, a.review, a.outcome);
    }
  }

  lemma AdvanceDecides(st: Sys, k: nat, o: Outcome)
    requires Decisions(st) && k < |st.reviews|
    ensures Decisions(Next(st, Advance(k, o)))
  {
    var st' := Next(st, Advance(k, o));
    var r, r' := st.reviews[k], st'.reviews[k];
    StepDecides(st.shared, r, o);
    hide Step;
    forall i | 0 <= i < |st'.reviews| && i != k && Won(st'.reviews[i].pc)
      ensures Decided(st'.shared.proposals, st'.reviews[i].req)
      ensures Won(r'.pc) ==> st'.reviews[i].req.proposal != r'.req.proposal
    {
      assert st'.reviews[i] == st.reviews[i];
      assert Decided(st.shared.proposals, st.reviews[i].req);
    }
  }

  // Main result: from any reachable state on, whatever happens next, a settled proposal stays
  // as it was decided; so it leaves pending at most once.
  lemma {:induction false} DecisionsHold(actions: seq<Action>)
    ensures Decisions(Run(actions))
  {
    if actions != [] {
      DecisionsHold(actions[..|actions| - 1]);
      NextDecides(Run(actions[..|actions| - 1]), actions[|actions| - 1]);
    }
  }

  lemma {:induction false} DecisionsSettle(actions: seq<Action>, n: nat)
    requires n <= |actions|
    ensures Settled(Run(actions[..n]).shared.proposals, Run(actions).shared.proposals)
  {
    if n == |actions| {
      assert actions[..n] == actions;
    } else {
      var init := actions[..|actions| - 1];
      assert init[..n] == actions[..n];
      DecisionsSettle(init, n);
      DecisionsHold(init);
      NextDecides(Run(init), actions[|actions| - 1]);
    }
  }

  // --- Audit log and announcements ---

  ghost predicate AuditedBy(r: Review, e: AuditEntry) {
    && (r.pc.Publishing? || r.pc.ApprovedReply? || r.pc.RejectedReply?)
    && e == AuditEntry(r.req.proposal, r.req.userId, if r.req.approve then Approved else Rejected, r.req.notes)
  }

  ghost predicate AnnouncedBy(r: Review, e: Announcement) {
    && r.pc.ApprovedReply?
    && e == Announcement(r.pc.category, r.pc.version, r.pc.schema, r.req.proposal, r.req.reviewer)
  }

  ghost predicate Audited(reviews: seq<Review>, e: AuditEntry) {
    exists r | r in reviews :: AuditedBy(r, e)
  }

  ghost predicate Announced(reviews: seq<Review>, e: Announcement) {
    exists r | r in reviews :: AnnouncedBy(r, e)
  }

  // Every entry was written by a review that won, and no proposal has two.
  ghost predicate Audits(st: Sys) {
    && (forall k | 0 <= k < |st.shared.audit| :: Audited(st.reviews, st.shared.audit[k]))
    && (forall k, l | 0 <= k < l < |st.shared.audit| :: st.shared.audit[k].proposal != st.shared.audit[l].proposal)
  }

  ghost predicate Announcements(st: Sys) {
    && (forall k | 0 <= k < |st.shared.announced| :: Announced(st.reviews, st.shared.announced[k]))
    && (forall k, l | 0 <= k < l < |st.shared.announced| ::
       st.shared.announced[k].proposal != st.shared.announced[l].proposal)
  }

  lemma StepWrites(s: Shared, r: Review, o: Outcome)
    requires PcFits(r)
    ensures var (s', r') := Step(s, r, o);
      && (s'.audit == s.audit || (s'.audit == s.audit + [s'.audit[|s.audit|]] && Won(r.pc)
         && AuditedBy(r', s'.audit[|s.audit|])
            && !r.pc.Publishing? && !r.pc.ApprovedReply? && !r.pc.RejectedReply?))
      && (s'.announced == s.announced
          || (s'.announced == s.announced + [s'.announced[|s.announced|]] && r.pc.Publishing?
              && AnnouncedBy(r', s'.announced[|s.announced|])))
      && (forall e | AuditedBy(r, e) :: AuditedBy(r', e))
      && (forall e | AnnouncedBy(r, e) :: AnnouncedBy(r', e))
  {
  }

  lemma AdvanceAudits(st: Sys, k: nat, o: Outcome)
    requires Decisions(st) && Audits(st) && k < |st.reviews|
    ensures Audits(Next(st, Advance(k, o)))
  {
    var st' := Next(st, Advance(k, o));
    var r := st.reviews[k];
    var n := |st.shared.audit|;
    StepWrites(st.shared, r, o);
    hide Step;
    forall e | Audited(st.reviews, e) ensures Audited(st'.reviews, e) {
      var w :| w in st.reviews && AuditedBy(w, e);
      var i :| 0 <= i < |st.reviews| && st.reviews[i] == w;
      assert AuditedBy(st'.reviews[i], e) && st'.reviews[i] in st'.reviews;
    }
    if |st'.shared.audit| > n {
      assert AuditedBy(st'.reviews[k], st'.shared.audit[n]) && st'.reviews[k] in st'.reviews;
      forall l | 0 <= l < n ensures st.shared.audit[l].proposal != r.req.proposal {
        var w :| w in st.reviews && AuditedBy(w, st.shared.audit[l]);
        var i :| 0 <= i < |st.reviews| && st.reviews[i] == w;
        assert Won(st.reviews[i].pc) && Won(st.reviews[k].pc);
      }
    }
  }

  lemma AdvanceAnnounces(st: Sys, k: nat, o: Outcome)
    requires Decisions(st) && Announcements(st) && k < |st.reviews|
    ensures Announcements(Next(st, Advance(k, o)))
  {
    var st' := Next(st, Advance(k, o));
    var r := st.reviews[k];
    var n := |st.shared.announced|;
    StepWrites(st.shared, r, o);
    hide Step;
    forall e | Announced(st.reviews, e) ensures Announced(st'.reviews, e) {
      var w :| w in st.reviews && AnnouncedBy(w, e);
      var i :| 0 <= i < |st.reviews| && st.reviews[i] == w;
      assert AnnouncedBy(st'.reviews[i], e) && st'.reviews[i] in st'.reviews;
    }
    if |st'.shared.announced| > n {
      assert AnnouncedBy(st'.reviews[k], st'.shared.announced[n]) && st'.reviews[k] in st'.reviews;
      forall l | 0 <= l < n ensures st.shared.announced[l].proposal != r.req.proposal {
        var w :| w in st.reviews && AnnouncedBy(w, st.shared.announced[l]);
        var i :| 0 <= i < |st.reviews| && st.reviews[i] == w;
        assert Won(st.reviews[i].pc) && Won(st.reviews[k].pc);
      }
    }
  }

  lemma OtherActionsWriteNothing(st: Sys, a: Action)
    requires Audits(st) && Announcements(st)
    requires !a.Advance? || a.review >= |st.reviews|
    ensures Audits(Next(st, a)) && Announcements(Next(st, a))
  {
    var st' := Next(st, a);
    assert st'.shared.audit == st.shared.audit && st'.shared.announced == st.shared.announced;
    assert forall r | r in st.reviews :: r in st'.reviews;
    forall e | Audited(st.reviews, e) ensures Audited(st'.reviews, e) {}
    forall e | Announced(st.reviews, e) ensures Announced(st'.reviews, e) {}
  }

  lemma {:induction false} WritesHold(actions: seq<Action>)
    ensures Audits(Run(actions)) && Announcements(Run(actions))
  {
    if actions != [] {
      var init, a := actions[..|actions| - 1], actions[|actions| - 1];
      var st := Run(init);
      WritesHold(init);
      DecisionsHold(init);
      if a.Advance? && a.review < |st.reviews| {
        AdvanceAudits(st, a.review, a.outcome);
        AdvanceAnnounces(st, a.review, a.outcome);
      } else {
        OtherActionsWriteNothing(st, a);
      }
    }
  }

  // Main result: a proposal has at most one audit entry and at most one schema.approved event,
  // and each agrees with its final status.
  lemma AuditAndEventsAgree(actions: seq<Action>)
    ensures var s := Run(actions).shared;
      && (forall k | 0 <= k < |s.audit| ::
            && s.audit[k].proposal < |s.proposals|
            && s.proposals[s.audit[k].proposal].status == s.audit[k].action
            && s.proposals[s.audit[k].proposal].notes == s.audit[k].notes)
      && (forall k | 0 <= k < |s.announced| ::
            && s.announced[k].proposal < |s.proposals|
            && s.proposals[s.announced[k].proposal].status == Approved
            && s.proposals[s.announced[k].proposal].reviewedBy == s.announced[k].approvedBy)
      && (forall k, l | 0 <= k < l < |s.audit| :: s.audit[k].proposal != s.audit[l].proposal)
      && (forall k, l | 0 <= k < l < |s.announced| :: s.announced[k].proposal != s.announced[l].proposal)
  {
    var st := Run(actions);
    DecisionsHold(actions);
    WritesHold(actions);
    hide Run;
    forall k | 0 <= k < |st.shared.audit|
      ensures var e := st.shared.audit[k];
        && e.proposal < |st.shared.proposals|
        && st.shared.proposals[e.proposal].status == e.action && st.shared.proposals[e.proposal].notes == e.notes
    {
      assert Audited(st.reviews, st.shared.audit[k]);
      var w :| w in st.reviews && AuditedBy(w, st.shared.audit[k]);
      assert Won(w.pc) && Decided(st.shared.proposals, w.req);
    }
    forall k | 0 <= k < |st.shared.announced|
      ensures var e := st.shared.announced[k];
        && e.proposal < |st.shared.proposals|
        && st.shared.proposals[e.proposal].status == Approved
        && st.shared.proposals[e.proposal].reviewedBy == e.approvedBy
    {
      assert Announced(st.reviews, st.shared.announced[k]);
      var w :| w in st.reviews && AnnouncedBy(w, st.shared.announced[k]);
      assert Won(w.pc) && Decided(st.shared.proposals, w.req);
    }
  }

  // --- Counting versions ---

  predicate IsApproved(p: Proposal) { p.status == Approved }
  predicate InFlight(r: Review) { r.pc.Finalizing? }
  predicate FinaliseLost(r: Review) { r.pc.FinalizeFailed? && !r.pc.took }
  predicate CreateLost(r: Review) { r.pc.CreateFailed? && r.pc.took }

  // Versions created by reviews = approved proposals + approvals between the insert and the
  // finalise + approvals whose finalise failed + approvals that were told their insert failed
  // although it had not.
  ghost predicate VersionsAccounted(st: Sys) {
    |st.shared.made| == Count(st.shared.proposals, IsApproved) + Count(st.reviews, InFlight)
      + Count(st.reviews, FinaliseLost)
      + Count(st.reviews, CreateLost)
  }

  lemma StepCounts(s: Shared, r: Review, o: Outcome)
    requires PcFits(r)
    ensures var (s', r') := Step(s, r, o);
      |s'.made| - |s.made| == Count(s'.proposals, IsApproved) - Count(s.proposals, IsApproved)
        + (if InFlight(r') then 1 else 0) - (if InFlight(r) then 1 else 0)
        + (if FinaliseLost(r') then 1 else 0) - (if FinaliseLost(r) then 1 else 0)
        + (if CreateLost(r') then 1 else 0) - (if CreateLost(r) then 1 else 0)
  {
    var (s', r') := Step(s, r, o);
    var p := r.req.proposal;
    if p < |s.proposals| && p < |s'.proposals| {
      CountUpdate(s.proposals, p, s'.proposals[p], IsApproved);
    }
  }

  lemma NextCounts(st: Sys, a: Action)
    requires Decisions(st) && VersionsAccounted(st)
    ensures VersionsAccounted(Next(st, a))
  {
    match a
    case Begin(req) =>
      CountAppend(st.reviews, Review(req, Reading), InFlight);
      CountAppend(st.reviews, Review(req, Reading), FinaliseLost);
      CountAppend(st.reviews, Review(req, Reading), CreateLost);
    case Advance(i, o) =>
      if i < |st.reviews| {
        var r' := Step(st.shared, st.reviews[i], o).1;
        StepCounts(st.shared, st.reviews[i], o);
        CountUpdate(st.reviews, i, r', InFlight);
        CountUpdate(st.reviews, i, r', FinaliseLost);
        CountUpdate(st.reviews, i, r', CreateLost);
      }
    case Propose(category, document, routing) =>
      CountAppend(st.shared.proposals, Proposal(category, document, routing, Pending, "", "", None), IsApproved);
    case AdminDelete(category) =>
      CountSame(st.shared.proposals, Next(st, a).shared.proposals, IsApproved);
    case _ =>
  }

  lemma {:induction false} VersionsAreAccountedFor(actions: seq<Action>)
    ensures VersionsAccounted(Run(actions))
  {
    if actions != [] {
      VersionsAreAccountedFor(actions[..|actions| - 1]);
      DecisionsHold(actions[..|actions| - 1]);
      NextCounts(Run(actions[..|actions| - 1]), actions[|actions| - 1]);
    }
  }

  // The same, proposal by proposal.
  function MadeFor(p: nat): nat -> bool { (m: nat) => m == p }

  // An approval of p that has created a version which it has not got, or did not get, approved.
  function Unapproved(p: nat): Review -> bool {
    (r: Review) => r.req.proposal == p && (InFlight(r) || FinaliseLost(r) || CreateLost(r))
  }

  predicate ApprovedAt(proposals: seq<Proposal>, p: nat) {
    p < |proposals| && IsApproved(proposals[p])
  }

  // Versions created for p = 1 if p is approved + its approvals in flight or lost.
  ghost predicate VersionsOf(st: Sys, p: nat) {
    Count(st.shared.made, MadeFor(p))
      == (if ApprovedAt(st.shared.proposals, p) then 1 else 0) + Count(st.reviews, Unapproved(p))
  }

  lemma StepVersionsOf(s: Shared, r: Review, o: Outcome, p: nat)
    requires PcFits(r)
    ensures var (s', r') := Step(s, r, o);
      Count(s'.made, MadeFor(p)) - Count(s.made, MadeFor(p)) ==
        (if ApprovedAt(s'.proposals, p) then 1 else 0) - (if ApprovedAt(s.proposals, p) then 1 else 0)
        + (if Unapproved(p)(r') then 1 else 0) - (if Unapproved(p)(r) then 1 else 0)
  {
    hide CreateVersion; hide HasSchema; hide Count;
    if r.pc.Creating? && o.TookEffect() { CountAppend(s.made, r.req.proposal, MadeFor(p)); }
  }

  lemma NextVersionsOf(st: Sys, a: Action, p: nat)
    requires Decisions(st) && VersionsOf(st, p)
    ensures VersionsOf(Next(st, a), p)
  {
    hide Step; hide Count; hide CreateVersion; hide DeleteCategory; hide InsertEvent;
    match a
    case Begin(req) => CountAppend(st.reviews, Review(req, Reading), Unapproved(p));
    case Advance(i, o) =>
      if i < |st.reviews| {
        StepVersionsOf(st.shared, st.reviews[i], o, p);
        CountUpdate(st.reviews, i, Step(st.shared, st.reviews[i], o).1, Unapproved(p));
      }
    case _ =>
  }

  // Main result: so a proposal gets exactly one version unless one of its approvals was in flight
  // or lost, in any interleaving.
  lemma {:induction false} VersionsPerProposal(actions: seq<Action>, p: nat)
    ensures VersionsOf(Run(actions), p)
  {
    if actions != [] {
      VersionsPerProposal(actions[..|actions| - 1], p);
      DecisionsHold(actions[..|actions| - 1]);
      NextVersionsOf(Run(actions[..|actions| - 1]), actions[|actions| - 1], p);
    }
  }

  // Two approvals can both get past the check for pending and create a version each; only one of
  // them finalises.
  const IN_TURN: seq<Action> := [Advance(0, Ok)] + [Advance(1, Ok)]

  function Race(category: string, document: Schema, routing: Routing, one: Request, two: Request): seq<Action> {
    [Propose(category, document, routing)] + [Begin(one)] + [Begin(two)] + IN_TURN + IN_TURN + IN_TURN
  }

  lemma RacingApprovalsCreateTwo(category: string, document: Schema, routing: Routing, one: Request, two: Request)
    requires one.approve && two.approve && one.proposal == two.proposal == 0
    ensures var st := Run(Race(category, document, routing, one, two));
      && st.shared.made == [0, 0] && |st.shared.tables.schemas| == 2
      && |st.reviews| == 2 && Won(st.reviews[0].pc) && FinaliseLost(st.reviews[1])
  {
    var p := Proposal(category, document, routing, Pending, "", "", None);
    var s0 := Shared(EMPTY, [p], [], [], []);
    var a, b := Review(one, Reading), Review(two, Reading);
    var start := [Propose(category, document, routing)] + [Begin(one)] + [Begin(two)];
    RunMore([], Propose(category, document, routing));
    RunMore([Propose(category, document, routing)], Begin(one));
    RunMore([Propose(category, document, routing)] + [Begin(one)], Begin(two));
    assert [] + [Propose(category, document, routing)] == [Propose(category, document, routing)];
    assert Run(start) == Sys(s0, [a, b]) by { assert Run([]) == INITIAL; }
    var (t1, row1) := CreateVersion(EMPTY, category, document, routing);
    var (t2, row2) := CreateVersion(t1, category, document, routing);
    assert |t1.schemas| == 1 && |t2.schemas| == 2;
    assert HasSchema(t2, row1.id) by { assert t2.schemas[0].id == row1.id; }
    hide Run; hide CreateVersion; hide HasSchema;
    RunInTurn(start, s0, a, b);
    var a1, b1 := a.(pc := Creating(category, document, routing)), b.(pc := Creating(category, document, routing));
    RunInTurn(start + IN_TURN, s0, a1, b1);
    var s2 := s0.(tables := t2, made := [0, 0]);
    var a2 := a.(pc := Finalizing(category, row1.version, row1.id));
    var b2 := b.(pc := Finalizing(category, row2.version, row2.id));
    RunInTurn(start + IN_TURN + IN_TURN, s2, a2, b2);
    var (s3, a3) := Step(s2, a2, Ok);
    assert a3.pc.Auditing? && s3.proposals[0].status == Approved;
    assert Step(s3, b2, Ok).1.pc == FinalizeFailed(category, row2.version, row2.id, false);
  }

  lemma RunMore(actions: seq<Action>, a: Action)
    ensures Run(actions + [a]) == Next(Run(actions), a)
  {
    assert (actions + [a])[..|actions|] == actions;
  }

  lemma RunInTurn(actions: seq<Action>, s: Shared, a: Review, b: Review)
    requires Run(actions) == Sys(s, [a, b])
    ensures var (s1, a1) := Step(s, a, Ok);
      var (s2, b2) := Step(s1, b, Ok);
      Run(actions + IN_TURN) == Sys(s2, [a1, b2])
  {
    RunMore(actions, Advance(0, Ok));
    RunMore(actions + [Advance(0, Ok)], Advance(1, Ok));
    assert actions + IN_TURN == actions + [Advance(0, Ok)] + [Advance(1, Ok)];
    hide Run; hide Step;
  }

  // --- Announced versions ---

  // As long as the row exists, it is that version of that category.
  ghost predicate Token(t: Tables, category: string, version: nat, schema: nat) {
    && schema < t.minted
    && forall i | 0 <= i < |t.schemas| && t.schemas[i].id == schema ::
         category in t.categories && t.schemas[i].category == t.categories[category] && t.schemas[i].version == version
  }

  ghost predicate Tokens(st: Sys) {
    && Inv(st.shared.tables)
    && (forall i | 0 <= i < |st.reviews| && HoldsVersion(st.reviews[i].pc) ::
          Token(st.shared.tables, st.reviews[i].pc.category, st.reviews[i].pc.version, st.reviews[i].pc.schema))
    && (forall k | 0 <= k < |st.shared.announced| ::
          Token(st.shared.tables, st.shared.announced[k].category, st.shared.announced[k].version,
            st.shared.announced[k].schema))
  }

  predicate HoldsVersion(pc: Pc) {
    pc.Finalizing? || pc.Auditing? || pc.Publishing?
  }

  lemma TokenSurvivesCreate(t: Tables, name: string, document: Schema, routing: Routing, category: string, version: nat,
                            schema: nat)
    requires Inv(t) && Token(t, category, version, schema)
    ensures Token(CreateVersion(t, name, document, routing).0, category, version, schema)
  {
    CreateVersionCategories(t, name, document, routing);
  }

  lemma NewToken(t: Tables, name: string, document: Schema, routing: Routing)
    requires Inv(t)
    ensures var (t', row) := CreateVersion(t, name, document, routing); Token(t', name, row.version, row.id)
  {
    CreateVersionCategories(t, name, document, routing);
  }

  lemma TokenSurvivesDelete(t: Tables, name: string, category: string, version: nat, schema: nat)
    requires Inv(t) && Token(t, category, version, schema) && DeleteCategory(t, name).Deleted?
    ensures Token(DeleteCategory(t, name).tables, category, version, schema)
  {
    var t' := DeleteCategory(t, name).tables;
    WithoutMembers(t.schemas, t.categories[name]);
    forall i | 0 <= i < |t'.schemas| && t'.schemas[i].id == schema
      ensures category in t'.categories && t'.schemas[i].category == t'.categories[category]
        && t'.schemas[i].version == version
    {
      assert t'.schemas[i] in t'.schemas;
    }
  }

  lemma StepCreates(s: Shared, r: Review, o: Outcome)
    ensures var s' := Step(s, r, o).0;
      s'.tables == if r.pc.Creating? && o.TookEffect()
        then CreateVersion(s.tables, r.pc.category, r.pc.document, r.pc.routing).0 else s.tables
  {
    hide CreateVersion; hide HasSchema;
  }

  lemma StepTables(s: Shared, r: Review, o: Outcome)
    requires Inv(s.tables)
    ensures Inv(Step(s, r, o).0.tables)
  {
    hide Inv; hide CreateVersion; hide Step;
    StepCreates(s, r, o);
    if r.pc.Creating? { CreateVersionKeepsInv(s.tables, r.pc.category, r.pc.document, r.pc.routing); }
  }

  // Where the version that a review holds, or announces, comes from.
  lemma StepHolds(s: Shared, r: Review, o: Outcome)
    ensures var (s', r') := Step(s, r, o);
      && (HoldsVersion(r'.pc) ==>
            if r.pc.Creating? then
              var row := CreateVersion(s.tables, r.pc.category, r.pc.document, r.pc.routing).1;
              o.TookEffect() && r'.pc == Finalizing(r.pc.category, row.version, row.id)
            else
              HoldsVersion(r.pc) && r'.pc.category == r.pc.category && r'.pc.version == r.pc.version
              && r'.pc.schema == r.pc.schema)
      && (s'.announced == s.announced
          || (r.pc.Publishing?
              && s'.announced == s.announced
                 + [Announcement(r.pc.category, r.pc.version, r.pc.schema, r.req.proposal, r.req.reviewer)]))
  {
    hide CreateVersion; hide HasSchema;
  }

  lemma StepTokens(s: Shared, r: Review, o: Outcome)
    requires Inv(s.tables)
    requires HoldsVersion(r.pc) ==> Token(s.tables, r.pc.category, r.pc.version, r.pc.schema)
    ensures var (s', r') := Step(s, r, o);
      && Inv(s'.tables)
      && (HoldsVersion(r'.pc) ==> Token(s'.tables, r'.pc.category, r'.pc.version, r'.pc.schema))
      && (forall category, version, schema | Token(s.tables, category, version, schema) ::
         Token(s'.tables, category, version, schema))
      && (s'.announced == s.announced
         || (|s'.announced| == |s.announced| + 1 && s'.announced[..|s.announced|] == s.announced
            && var e := s'.announced[|s.announced|]; Token(s'.tables, e.category, e.version, e.schema)))
  {
    hide Inv; hide Token; hide CreateVersion; hide Step;
    StepTables(s, r, o);
    StepCreates(s, r, o);
    StepHolds(s, r, o);
    if r.pc.Creating? && o.TookEffect() {
      NewToken(s.tables, r.pc.category, r.pc.document, r.pc.routing);
      forall category, version, schema | Token(s.tables, category, version, schema)
        ensures Token(CreateVersion(s.tables, r.pc.category, r.pc.document, r.pc.routing).0, category, version, schema)
      {
        TokenSurvivesCreate(s.tables, r.pc.category, r.pc.document, r.pc.routing, category, version, schema);
      }
    }
  }

  lemma ActionTokens(t: Tables, a: Action, category: string, version: nat, schema: nat)
    requires Inv(t) && Token(t, category, version, schema)
    ensures a.AdminCreate? ==> Token(CreateVersion(t, a.category, a.document, a.routing).0, category, version, schema)
    ensures a.AdminDelete? ==>
      match DeleteCategory(t, a.category)
      case Deleted(t') => Token(t', category, version, schema)
      case _ => true
    ensures a.RouteEvent? ==>
      match InsertEvent(t, a.categoryId, a.schema, a.envelope)
      case Some(t') => Token(t', category, version, schema)
      case None => true
  {
    if a.AdminCreate? { TokenSurvivesCreate(t, a.category, a.document, a.routing, category, version, schema); }
    if a.AdminDelete? && DeleteCategory(t, a.category).Deleted? {
      TokenSurvivesDelete(t, a.category, category, version, schema);
    }
  }

  lemma NextTables(st: Sys, a: Action)
    requires Inv(st.shared.tables)
    ensures Inv(Next(st, a).shared.tables)
  {
    var t := st.shared.tables;
    if a.Advance? && a.review < |st.reviews| {
      StepTables(st.shared, st.reviews[a.review], a.outcome);
    }
    if a.AdminCreate? { CreateVersionKeepsInv(t, a.category, a.document, a.routing); }
    if a.AdminDelete? && DeleteCategory(t, a.category).Deleted? { DeleteKeepsInv(t, a.category); }
    if a.RouteEvent? { InsertKeepsInv(t, a.categoryId, a.schema, a.envelope); }
    hide Inv; hide CreateVersion; hide DeleteCategory; hide InsertEvent; hide Step;
  }

  lemma NextTokens(st: Sys, a: Action)
    requires Tokens(st)
    ensures Tokens(Next(st, a))
  {
    hide Token; hide Inv; hide Step; hide CreateVersion; hide DeleteCategory; hide InsertEvent;
    NextTables(st, a);
    if a.Advance? && a.review < |st.reviews| {
      AdvanceTokens(st, a.review, a.outcome);
    } else {
      var st' := Next(st, a);
      forall category, version, schema | Token(st.shared.tables, category, version, schema)
        ensures Token(st'.shared.tables, category, version, schema)
      {
        ActionTokens(st.shared.tables, a, category, version, schema);
      }
    }
  }

  lemma AdvanceTokens(st: Sys, k: nat, o: Outcome)
    requires Tokens(st) && k < |st.reviews|
    ensures Tokens(Next(st, Advance(k, o)))
  {
    hide Token; hide Inv; hide Step;
    StepTokens(st.shared, st.reviews[k], o);
  }

  lemma {:induction false} TokensHold(actions: seq<Action>)
    ensures Tokens(Run(actions))
  {
    if actions != [] {
      TokensHold(actions[..|actions| - 1]);
      NextTokens(Run(actions[..|actions| - 1]), actions[|actions| - 1]);
    }
  }

  // Main result: a version that schema.approved announces is, while its row exists, at most the
  // current version of the announced category, so the category has not gone back behind it.
  lemma AnnouncedVersionIsReached(actions: seq<Action>, k: nat)
    requires k < |Run(actions).shared.announced|
    ensures var s := Run(actions).shared; var e := s.announced[k];
      HasSchema(s.tables, e.schema)
      ==> e.category in s.tables.categories && 1 <= e.version <= Current(s.tables, e.category)
  {
    var s := Run(actions).shared;
    var e := s.announced[k];
    TokensHold(actions);
    hide Run;
    if HasSchema(s.tables, e.schema) {
      var i :| 0 <= i < |s.tables.schemas| && s.tables.schemas[i].id == e.schema;
      var row := s.tables.schemas[i];
      var rows := RowsOf(s.tables.schemas, row.category);
      RowsOfMembers(s.tables.schemas, row.category);
      assert row in rows;
      var j :| 0 <= j < |rows| && rows[j] == row;
      assert Numbered(rows);
    }
  }
}
