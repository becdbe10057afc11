/**
 What a review's read decides (internal/registry/handlers.go:248-262): a review whose read fails,
 or does not find its proposal pending, is refused and changes nothing, so versions are created
 only for proposals that were read while they were pending.
 */
module ReviewReads {
  import opened Prelude
  import opened SchemaInference
  import opened Envelopes
  import opened RegistryTables
  import opened Review
  import opened ReviewProtocol

  ghost function At(actions: seq<Action>, n: nat): Sys
    requires n <= |actions|
  {
    Run(actions[..n])
  }

  lemma AtNext(actions: seq<Action>, n: nat)
    requires n < |actions|
    ensures At(actions, n + 1) == Next(At(actions, n), actions[n])
  {
    assert actions[..n + 1][..n] == actions[..n];
  }

  // Action n is the read of review i.
  ghost predicate Reads(actions: seq<Action>, n: nat, i: nat) {
    && n < |actions| && actions[n].Advance? && actions[n].review == i
    && i < |At(actions, n).reviews| && At(actions, n).reviews[i].pc == Reading
  }

  // What it finds.
  ghost predicate FindsPending(actions: seq<Action>, n: nat, i: nat)
    requires Reads(actions, n, i)
  {
    var st := At(actions, n);
    var p := st.reviews[i].req.proposal;
    actions[n].outcome.Ok? && p < |st.shared.proposals| && st.shared.proposals[p].status == Pending
  }

  // The reply to a read that does not find a pending proposal.
  ghost function RefusalAt(actions: seq<Action>, n: nat, i: nat): nat
    requires Reads(actions, n, i)
  {
    var st := At(actions, n);
    if !actions[n].outcome.Ok? then 500
    else if st.reviews[i].req.proposal >= |st.shared.proposals| then 404
    else 400
  }

  // A review that has replied stays as it is.
  lemma {:induction false} RepliedStays(actions: seq<Action>, n: nat, m: nat, i: nat)
    requires n <= m <= |actions| && i < |At(actions, n).reviews| && At(actions, n).reviews[i].pc.Replied()
    ensures i < |At(actions, m).reviews| && At(actions, m).reviews[i] == At(actions, n).reviews[i]
    decreases m
  {
    if n < m {
      RepliedStays(actions, n, m - 1, i);
      AtNext(actions, m - 1);
      hide At; hide CreateVersion; hide DeleteCategory; hide InsertEvent; hide Finalize; hide ClearReferences;
    }
  }

  lemma RefusedStep(s: Shared, r: Review, o: Outcome)
    requires r.pc == Reading
    requires !(o.Ok? && r.req.proposal < |s.proposals| && s.proposals[r.req.proposal].status == Pending)
    ensures var code := if !o.Ok? then 500 else if r.req.proposal >= |s.proposals| then 404 else 400;
      Step(s, r, o) == (s, Review(r.req, Refused(code)))
  {
  }

  // Main result: a review whose read fails, or does not find its proposal pending, leaves
  // everything as it is, and is answered 500, 404 or 400, for good.
  lemma UnlessPendingRefused(actions: seq<Action>, n: nat, i: nat, m: nat)
    requires Reads(actions, n, i) && !FindsPending(actions, n, i) && n < m <= |actions|
    ensures At(actions, n + 1).shared == At(actions, n).shared
    ensures i < |At(actions, m).reviews| && At(actions, m).reviews[i].pc == Refused(RefusalAt(actions, n, i))
  {
    var st := At(actions, n);
    AtNext(actions, n);
    RefusedStep(st.shared, st.reviews[i], actions[n].outcome);
    hide At; hide Step;
    RepliedStays(actions, n + 1, m, i);
  }

  // --- Versions ---

  // A proposal's schema is what was proposed.
  ghost predicate SameOffers(before: seq<Proposal>, after: seq<Proposal>) {
    && |before| <= |after|
    && forall p | 0 <= p < |before| ::
         after[p].category == before[p].category && after[p].document == before[p].document
         && after[p].routing == before[p].routing
  }

  lemma NextOffers(st: Sys, a: Action)
    ensures SameOffers(st.shared.proposals, Next(st, a).shared.proposals)
    ensures |st.reviews| <= |Next(st, a).reviews|
    ensures forall i | 0 <= i < |st.reviews| && !(a.Advance? && a.review == i) ::
      Next(st, a).reviews[i] == st.reviews[i]
  {
    hide CreateVersion; hide DeleteCategory; hide InsertEvent;
  }

  // The review has read its proposal while it was pending, before position m.
  ghost predicate HasReadPending(actions: seq<Action>, m: nat, i: nat) {
    exists n: nat :: n < m && Reads(actions, n, i) && FindsPending(actions, n, i)
  }

  // It is creating what its proposal offers.
  ghost predicate CreatesOffer(s: Shared, r: Review) {
    r.pc.Creating? ==>
      && r.req.approve && r.req.proposal < |s.proposals|
      && var p := s.proposals[r.req.proposal];
         p.category == r.pc.category && p.document == r.pc.document && p.routing == r.pc.routing
  }

  predicate PastRead(pc: Pc) {
    !pc.Reading? && !pc.Refused?
  }

  lemma StepReads(s: Shared, r: Review, o: Outcome)
    requires CreatesOffer(s, r)
    ensures var r' := Step(s, r, o).1;
      && r'.req == r.req && CreatesOffer(s, r')
      && (PastRead(r'.pc) ==> PastRead(r.pc) || (r.pc == Reading && o.Ok? && r.req.proposal < |s.proposals|
                                                 && s.proposals[r.req.proposal].status == Pending))
  {
    hide CreateVersion; hide Finalize;
  }

  lemma {:induction false} PastReadHasRead(actions: seq<Action>, m: nat, i: nat)
    requires m <= |actions| && i < |At(actions, m).reviews|
    ensures var st := At(actions, m);
      && (PastRead(st.reviews[i].pc) ==> HasReadPending(actions, m, i))
      && CreatesOffer(st.shared, st.reviews[i])
  {
    if m > 0 {
      var n := m - 1;
      var st, a := At(actions, n), actions[n];
      AtNext(actions, n);
      NextOffers(st, a);
      if i < |st.reviews| {
        PastReadHasRead(actions, n, i);
        if a.Advance? && a.review == i {
          StepReads(st.shared, st.reviews[i], a.outcome);
          assert Next(st, a).reviews[i] == Step(st.shared, st.reviews[i], a.outcome).1;
          hide At; hide Step; hide Next; hide PastRead;
          if PastRead(At(actions, m).reviews[i].pc) && !PastRead(st.reviews[i].pc) {
            assert Reads(actions, n, i) && FindsPending(actions, n, i);
          }
        }
      } else {
        hide At; hide CreateVersion; hide DeleteCategory; hide InsertEvent;
      }
    }
  }

  // Action k creates a version in a review.
  ghost predicate Creates(actions: seq<Action>, k: nat) {
    k < |actions| && At(actions, k + 1).shared.made != At(actions, k).shared.made
  }

  lemma StepMakes(s: Shared, r: Review, o: Outcome)
    ensures var s' := Step(s, r, o).0;
      if r.pc.Creating? && o.TookEffect()
      then s'.made == s.made + [r.req.proposal]
           && s'.tables == CreateVersion(s.tables, r.pc.category, r.pc.document, r.pc.routing).0
      else s'.made == s.made
  {
    hide CreateVersion; hide HasSchema;
  }

  // Main result: a version is created for a proposal only by an approval that has read the proposal
  // while it was pending, and it is what the proposal offers.
  lemma CreatedForPending(actions: seq<Action>, k: nat)
    requires Creates(actions, k)
    ensures var st, st' := At(actions, k), At(actions, k + 1);
      && actions[k].Advance? && actions[k].review < |st.reviews|
      && var r := st.reviews[actions[k].review];
      && r.req.approve && HasReadPending(actions, k, actions[k].review)
      && st'.shared.made == st.shared.made + [r.req.proposal]
      && r.req.proposal < |st.shared.proposals|
      && var p := st.shared.proposals[r.req.proposal];
         st'.shared.tables == CreateVersion(st.shared.tables, p.category, p.document, p.routing).0
  {
    var st, a := At(actions, k), actions[k];
    AtNext(actions, k);
    if a.Advance? && a.review < |st.reviews| {
      StepMakes(st.shared, st.reviews[a.review], a.outcome);
      PastReadHasRead(actions, k, a.review);
    }
    hide At; hide Step; hide CreateVersion; hide DeleteCategory; hide InsertEvent; hide HasReadPending;
  }

  // --- References to versions ---

  // The schema row that a review holds when it finalises an approval.
  function SchemaOf(pc: Pc): Option<nat> {
    if pc.Auditing? || pc.Publishing? || pc.ApprovedReply? || pc.FinalizeFailed? then Some(pc.schema) else None
  }

  // The reference as long as the row exists, none afterwards.
  ghost predicate Refers(t: Tables, schema: Option<nat>, resulting: Option<nat>) {
    && (schema.Some? ==> schema.value < t.minted)
    && resulting == if schema.Some? && HasSchema(t, schema.value) then schema else None
  }

  ghost predicate References(st: Sys) {
    && (forall i | 0 <= i < |st.reviews| && Won(st.reviews[i].pc) :: WinnerRefers(st.shared, st.reviews[i]))
    && (forall p | 0 <= p < |st.shared.proposals| && st.shared.proposals[p].status == Pending ::
          st.shared.proposals[p].resulting == None)
  }

  ghost predicate WinnerRefers(s: Shared, r: Review) {
    r.req.proposal < |s.proposals| && Refers(s.tables, SchemaOf(r.pc), s.proposals[r.req.proposal].resulting)
  }

  // New rows have new ids.
  lemma CreateKeepsReference(t: Tables, name: string, document: Schema, routing: Routing, schema: Option<nat>,
                             resulting: Option<nat>)
    requires Refers(t, schema, resulting)
    ensures Refers(CreateVersion(t, name, document, routing).0, schema, resulting)
  {
    var t' := CreateVersion(t, name, document, routing).0;
    hide MaxVersion;
    if schema.Some? {
      if HasSchema(t, schema.value) {
        var i :| 0 <= i < |t.schemas| && t.schemas[i].id == schema.value;
        assert t'.schemas[i].id == schema.value;
      }
      if HasSchema(t', schema.value) {
        var i :| 0 <= i < |t'.schemas| && t'.schemas[i].id == schema.value;
        assert i < |t.schemas| && t.schemas[i].id == schema.value;
      }
    }
  }

  lemma DeleteClearsReference(s: Shared, name: string, p: nat, schema: Option<nat>)
    requires DeleteCategory(s.tables, name).Deleted? && p < |s.proposals|
    requires Refers(s.tables, schema, s.proposals[p].resulting)
    ensures var t' := DeleteCategory(s.tables, name).tables;
      Refers(t', schema, ClearReferences(s.proposals, t')[p].resulting)
  {
    var t' := DeleteCategory(s.tables, name).tables;
    WithoutMembers(s.tables.schemas, s.tables.categories[name]);
    if schema.Some? && HasSchema(t', schema.value) {
      var i :| 0 <= i < |t'.schemas| && t'.schemas[i].id == schema.value;
      assert t'.schemas[i] in t'.schemas && t'.schemas[i] in s.tables.schemas;
      var j :| 0 <= j < |s.tables.schemas| && s.tables.schemas[j] == t'.schemas[i];
      assert HasSchema(s.tables, schema.value);
    }
  }

  // The review's own step.
  lemma StepRefers(s: Shared, r: Review, o: Outcome)
    requires Won(r.pc) ==> WinnerRefers(s, r)
    requires r.pc.Finalizing? ==> r.pc.schema < s.tables.minted
    ensures var (s', r') := Step(s, r, o);
      && (Won(r'.pc) ==> WinnerRefers(s', r'))
      && (s'.proposals == s.proposals || (r.req.proposal < |s.proposals| == |s'.proposals|
            && s.proposals[r.req.proposal].status == Pending && s'.proposals[r.req.proposal].status != Pending
            && forall p | 0 <= p < |s.proposals| && p != r.req.proposal :: s'.proposals[p] == s.proposals[p]))
  {
    hide CreateVersion; hide HasSchema;
  }

  lemma AdvanceRefers(st: Sys, k: nat, o: Outcome)
    requires Decisions(st) && Tokens(st) && References(st) && k < |st.reviews|
    ensures References(Next(st, Advance(k, o)))
  {
    var st' := Next(st, Advance(k, o));
    var r := st.reviews[k];
    StepRefers(st.shared, r, o);
    StepCreates(st.shared, r, o);
    hide Step; hide CreateVersion; hide Inv; hide Token; hide Refers; hide HasSchema;
    forall i | 0 <= i < |st'.reviews| && i != k && Won(st'.reviews[i].pc)
      ensures WinnerRefers(st'.shared, st'.reviews[i])
    {
      assert st'.reviews[i] == st.reviews[i] && WinnerRefers(st.shared, st.reviews[i]);
      assert Decided(st.shared.proposals, st.reviews[i].req);
      if r.pc.Creating? {
        CreateKeepsReference(st.shared.tables, r.pc.category, r.pc.document, r.pc.routing, SchemaOf(st.reviews[i].pc),
                             st.shared.proposals[st.reviews[i].req.proposal].resulting);
      }
    }
  }

  lemma OthersRefer(st: Sys, a: Action)
    requires References(st) && !a.Advance?
    ensures References(Next(st, a))
  {
    var st' := Next(st, a);
    hide CreateVersion; hide DeleteCategory; hide Refers; hide HasSchema;
    assert forall p | 0 <= p < |st.shared.proposals| :: st'.shared.proposals[p].status == st.shared.proposals[p].status;
    forall i | 0 <= i < |st'.reviews| && Won(st'.reviews[i].pc) ensures WinnerRefers(st'.shared, st'.reviews[i]) {
      var r := st.reviews[i];
      assert st'.reviews[i] == r && WinnerRefers(st.shared, r);
      match a
      case AdminCreate(category, document, routing) =>
        CreateKeepsReference(st.shared.tables, category, document, routing, SchemaOf(r.pc),
                             st.shared.proposals[r.req.proposal].resulting);
      case AdminDelete(category) =>
        if DeleteCategory(st.shared.tables, category).Deleted? {
          DeleteClearsReference(st.shared, category, r.req.proposal, SchemaOf(r.pc));
        }
      case RouteEvent(category, schema, e) =>
        if InsertEvent(st.shared.tables, category, schema, e).Some? {
          InsertKeepsReference(st.shared.tables, category, schema, e, SchemaOf(r.pc),
                               st.shared.proposals[r.req.proposal].resulting);
        }
      case _ =>
    }
  }

  lemma InsertKeepsReference(t: Tables, category: nat, id: nat, e: Envelope, schema: Option<nat>,
                             resulting: Option<nat>)
    requires InsertEvent(t, category, id, e).Some? && Refers(t, schema, resulting)
    ensures Refers(InsertEvent(t, category, id, e).value, schema, resulting)
  {
    var t' := InsertEvent(t, category, id, e).value;
    assert t'.schemas == t.schemas && t'.minted == t.minted;
  }

  // Main result: a finalised proposal names the version that its approval created as long as the row
  // exists, and none afterwards; a rejected one names none, nor does one that is pending.
  lemma {:induction false} ReferencesHold(actions: seq<Action>)
    ensures References(Run(actions))
  {
    if actions != [] {
      var init, a := actions[..|actions| - 1], actions[|actions| - 1];
      ReferencesHold(init);
      DecisionsHold(init);
      TokensHold(init);
      hide References; hide Decisions; hide Tokens;
      if a.Advance? {
        if a.review < |Run(init).reviews| { AdvanceRefers(Run(init), a.review, a.outcome); }
      } else {
        OthersRefer(Run(init), a);
      }
    }
  }
}
