/**
 Handling a message twice stores its event twice, in runs of the normalizer: what Process does
 undisturbed, it does in a run whose other tasks stand still.
 */
module Redelivery {
  import opened Prelude
  import opened SchemaInference
  import opened Envelopes
  import opened RegistryTables
  import opened RegistryClient
  import opened Normalizer
  import opened NormalizerRuns
  import opened Verdicts
  import opened EndToEnd

  // Steps of one task only.
  predicate ActsOf(actions: seq<Action>, i: nat) {
    forall k | 0 <= k < |actions| :: actions[k].Act? && actions[k].task == i
  }

  lemma OneMore(lokiSet: bool, actions: seq<Action>, a: Action)
    ensures Run(lokiSet, actions + [a]) == Next(Run(lokiSet, actions), a)
  {
    assert (actions + [a])[..|actions|] == actions;
  }

  // One step of a task that handles a message.
  lemma OneAct(st: Sys, i: nat, a: Answer)
    requires i < |st.tasks|
    requires var t := st.tasks[i]; t.Ingest? && t.ingest.Handling? && !t.ingest.call.pc.Returned()
    ensures var t := st.tasks[i];
      var (s1, c1) := CallStep(st.s, t.ingest.call, a);
      var phase := if c1.pc.Returned() then Settling(!c1.pc.Failed?) else Handling(c1);
      Next(st, Act(i, a)) == st.(s := s1, tasks := st.tasks[i := Ingest(t.message, phase)])
  {
    CallingStep(st.s, st.tasks[i], a);
    hide TaskStep; hide CallStep;
  }

  // The steps that follow in a run.
  function RunOn(st: Sys, more: seq<Action>): Sys
    decreases |more|
  {
    if more == [] then st else RunOn(Next(st, more[0]), more[1..])
  }

  lemma {:induction false} RunOnward(lokiSet: bool, actions: seq<Action>, more: seq<Action>)
    ensures Run(lokiSet, actions + more) == RunOn(Run(lokiSet, actions), more)
    decreases |more|
  {
    if more == [] {
      assert actions + more == actions;
    } else {
      OneMore(lokiSet, actions, more[0]);
      RunOnward(lokiSet, actions + [more[0]], more[1..]);
      assert actions + [more[0]] + more[1..] == actions + more;
    }
  }

  lemma RunOnFirst(st: Sys, a: Action, rest: seq<Action>)
    ensures RunOn(st, [a] + rest) == RunOn(Next(st, a), rest)
  {
    assert ([a] + rest)[1..] == rest;
  }

  // A task handling a message, stepped until its call returns, does what the call does on its own.
  lemma {:induction false} CallInRun(st: Sys, i: nat, net: nat -> Answer, j: nat) returns (more: seq<Action>)
    requires i < |st.tasks|
    requires var t := st.tasks[i]; t.Ingest? && t.ingest.Handling? && !t.ingest.call.pc.Returned()
    ensures var t := st.tasks[i];
      var (s', c', _) := RunCall(st.s, t.ingest.call, net, j);
      && ActsOf(more, i)
      && RunOn(st, more) == st.(s := s', tasks := st.tasks[i := Ingest(t.message, Settling(!c'.pc.Failed?))])
    decreases st.tasks[i].ingest.call.pc.Rank().0, st.tasks[i].ingest.call.pc.Rank().1
  {
    var c := st.tasks[i].ingest.call;
    var a := Act(i, net(j));
    var (s1, c1) := CallStep(st.s, c, net(j));
    CallStepDescends(st.s, c, net(j));
    OneAct(st, i, net(j));
    assert RunCall(st.s, c, net, j) == RunCall(s1, c1, net, j + 1);
    var rest := [];
    if c1.pc.Returned() {
      assert RunCall(s1, c1, net, j + 1) == (s1, c1, j + 1);
      assert RunOn(Next(st, a), rest) == Next(st, a);
    } else {
      hide CallStep; hide RunCall;
      rest := CallInRun(Next(st, a), i, net, j + 1);
    }
    more := [a] + rest;
    RunOnFirst(st, a, rest);
    hide CallStep; hide RunCall; hide RunOn; hide Next;
  }

  // What handling a message once does: its event is stored, and the acknowledgement is lost.
  lemma HandledInRun(lokiSet: bool, actions: seq<Action>, m: nat, e: Envelope, active: SchemaRow, net: nat -> Answer)
    returns (more: seq<Action>)
    requires var st := Run(lokiSet, actions);
      && m < |st.messages| && st.messages[m] == Some(e)
      && Ready(st.s, e.category, active)
    requires Conforms(active.document, e.payload) && NoTrouble(net)
    ensures var st := Run(lokiSet, actions);
      var st' := Run(lokiSet, actions + [Deliver(m)] + more);
      && ActsOf(more, |st.tasks|) && |st'.tasks| == |st.tasks| + 1
      && st'.messages == st.messages && Ready(st'.s, e.category, active) && st'.s.acked == st.s.acked
      && st'.s.tables.events == WithEvent(st.s.tables.events, active, e)
  {
    var st := Run(lokiSet, actions);
    OneMore(lokiSet, actions, Deliver(m));
    var begun := actions + [Deliver(m)];
    var i := |st.tasks|;
    hide Run; hide Ready; hide Conforms; hide NoTrouble;
    assert Run(lokiSet, begun).tasks[i] == Ingest(m, Handling(Call(e, Start)));
    var acts := CallInRun(Run(lokiSet, begun), i, net, 0);
    RunOnward(lokiSet, begun, acts);
    CallRoutes(st.s, e, active, net, 0);
    CallAcks(st.s, Call(e, Start), net, 0);
    var lost := Act(i, Answer(0.0, NoFault, Fail));
    OneMore(lokiSet, begun + acts, lost);
    more := acts + [lost];
    assert begun + acts + [lost] == begun + more;
    hide RunCall;
  }

  // Process acknowledges nothing.
  lemma {:induction false} CallAcks(s: Shared, c: Call, net: nat -> Answer, j: nat)
    ensures RunCall(s, c, net, j).0.acked == s.acked && RunCall(s, c, net, j).1.env == c.env
    decreases c.pc.Rank().0, c.pc.Rank().1
  {
    if !c.pc.Returned() {
      CallStepDescends(s, c, net(j));
      CallTouches(s, c, net(j));
      var (s1, c1) := CallStep(s, c, net(j));
      CallAcks(s1, c1, net, j + 1);
      hide CallStep;
    }
  }

  // --- Acknowledgements ---

  // A message that decodes, delivered in any state that a run can reach and handled undisturbed, is
  // acknowledged if and only if the call on its envelope did not fail and the acknowledgement takes
  // effect; besides, nothing is.
  lemma AckedIffHandled(lokiSet: bool, actions: seq<Action>, m: nat, e: Envelope, net: nat -> Answer, ack: Answer)
    returns (more: seq<Action>)
    requires var st := Run(lokiSet, actions); m < |st.messages| && st.messages[m] == Some(e)
    ensures var st := Run(lokiSet, actions);
      var (s', c', _) := RunCall(st.s, Call(e, Start), net, 0);
      var st' := Run(lokiSet, actions + [Deliver(m)] + more + [Act(|st.tasks|, ack)]);
      && ActsOf(more, |st.tasks|)
      && c'.pc.Returned() && c'.env == e
      && st'.s == (if !c'.pc.Failed? && ack.outcome.TookEffect() then s'.(acked := st.s.acked + {m}) else s')
  {
    var st := Run(lokiSet, actions);
    OneMore(lokiSet, actions, Deliver(m));
    var begun := actions + [Deliver(m)];
    var i := |st.tasks|;
    hide Run;
    assert Run(lokiSet, begun).tasks[i] == Ingest(m, Handling(Call(e, Start)));
    more := CallInRun(Run(lokiSet, begun), i, net, 0);
    RunOnward(lokiSet, begun, more);
    CallAcks(st.s, Call(e, Start), net, 0);
    RunCallReturns(st.s, Call(e, Start), net, 0);
    OneMore(lokiSet, begun + more, Act(i, ack));
    AckStep(Run(lokiSet, begun + more), i, ack);
    hide RunCall; hide Next; hide RunOn;
  }

  // The last step of a task that handles a message.
  lemma AckStep(st: Sys, i: nat, ack: Answer)
    requires i < |st.tasks| && st.tasks[i].Ingest? && st.tasks[i].ingest.Settling?
    ensures var t := st.tasks[i];
      Next(st, Act(i, ack)).s ==
        if t.ingest.ok && ack.outcome.TookEffect() then st.s.(acked := st.s.acked + {t.message}) else st.s
  {
  }

  // A message that does not decode is counted, and acknowledged if that takes effect.
  lemma GarbageIsAcked(lokiSet: bool, actions: seq<Action>, m: nat, a: Answer, ack: Answer)
    requires var st := Run(lokiSet, actions); m < |st.messages| && st.messages[m] == None
    ensures var st := Run(lokiSet, actions);
      var i := |st.tasks|;
      var st' := Run(lokiSet, actions + [Deliver(m)] + [Act(i, a)] + [Act(i, ack)]);
      && st'.s.acked == (if ack.outcome.TookEffect() then st.s.acked + {m} else st.s.acked)
      && st'.s.counts == st.s.counts.(quarantined := st.s.counts.quarantined + 1)
      && st'.s.rows == st.s.rows && st'.s.stream == st.s.stream && st'.s.tables == st.s.tables
  {
    var i := |Run(lokiSet, actions).tasks|;
    OneMore(lokiSet, actions, Deliver(m));
    OneMore(lokiSet, actions + [Deliver(m)], Act(i, a));
    OneMore(lokiSet, actions + [Deliver(m)] + [Act(i, a)], Act(i, ack));
    hide Run;
    var st1 := Run(lokiSet, actions + [Deliver(m)] + [Act(i, a)]);
    assert st1.tasks[i] == Ingest(m, Settling(true));
    AckStep(st1, i, ack);
    hide Next;
  }

  // --- Delivered twice ---

  // Main result: from every state that a run can reach in which the category is ready for it, a
  // message that is delivered, handled without an error but for the lost acknowledgement, and
  // delivered again, leaves two rows.
  lemma RedeliveredStoredTwice(lokiSet: bool, actions: seq<Action>, m: nat, e: Envelope, active: SchemaRow,
                               net: nat -> Answer) returns (first: seq<Action>, second: seq<Action>)
    requires var st := Run(lokiSet, actions);
      && m < |st.messages| && st.messages[m] == Some(e)
      && Ready(st.s, e.category, active)
    requires Conforms(active.document, e.payload) && NoTrouble(net)
    ensures var st := Run(lokiSet, actions);
      var st' := Run(lokiSet, actions + [Deliver(m)] + first + [Deliver(m)] + second);
      && ActsOf(first, |st.tasks|) && ActsOf(second, |st.tasks| + 1)
      && st'.s.acked == st.s.acked
      && st'.s.tables.events == WithEvent(WithEvent(st.s.tables.events, active, e), active, e)
  {
    hide Run; hide Ready; hide Conforms; hide NoTrouble; hide WithEvent;
    first := HandledInRun(lokiSet, actions, m, e, active, net);
    second := HandledInRun(lokiSet, actions + [Deliver(m)] + first, m, e, active, net);
  }

  // A message is published and a version created.
  lemma BeginRuns(lokiSet: bool, e: Envelope, document: Schema)
    ensures Run(lokiSet, Begin(e, document)) ==
      Sys(Initial(lokiSet).s.(tables := CreateVersion(EMPTY, e.category, document, Routing("postgres", [])).0),
          [Some(e)], [], [])
  {
    hide CreateVersion;
    var publish := PublishMessage(Some(e));
    var create := Action.Create(e.category, document, Routing("postgres", []));
    assert Run(lokiSet, []) == Initial(lokiSet);
    OneMore(lokiSet, [], publish);
    assert [] + [publish] == [publish];
    OneMore(lokiSet, [publish], create);
    hide Run;
  }

  lemma BeginReady(lokiSet: bool, e: Envelope, document: Schema) returns (active: SchemaRow)
    ensures var st := Run(lokiSet, Begin(e, document));
      && active.document == document && Ready(st.s, e.category, active)
      && st.messages == [Some(e)] && st.tasks == [] && st.s.acked == {} && st.s.tables.events == []
  {
    assert Inv(EMPTY);
    hide Run; hide CreateVersion; hide Inv; hide ActiveSchema; hide Begin;
    BeginRuns(lokiSet, e, document);
    CreateVersionEffect(EMPTY, e.category, document, Routing("postgres", []));
    active := CreateVersion(EMPTY, e.category, document, Routing("postgres", [])).1;
  }

  function Begin(e: Envelope, document: Schema): seq<Action> {
    [PublishMessage(Some(e))] + [Action.Create(e.category, document, Routing("postgres", []))]
  }

  // The shortest history of that kind: one message, one version, one postgres destination.
  lemma StoredTwice(lokiSet: bool, e: Envelope, document: Schema, net: nat -> Answer)
    returns (first: seq<Action>, second: seq<Action>)
    requires Conforms(document, e.payload) && NoTrouble(net)
    ensures var s := Run(lokiSet, Begin(e, document) + [Deliver(0)] + first + [Deliver(0)] + second).s;
      && ActsOf(first, 0) && ActsOf(second, 1) && 0 !in s.acked
      && |s.tables.events| == 2 && s.tables.events[0] == s.tables.events[1] && s.tables.events[0].envelope == e
  {
    var active := BeginReady(lokiSet, e, document);
    hide Run; hide Ready; hide Conforms; hide NoTrouble; hide Begin;
    first, second := RedeliveredStoredTwice(lokiSet, Begin(e, document), 0, e, active, net);
  }
}
