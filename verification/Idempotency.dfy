/**
 The gateway's collect endpoint and its idempotency table (internal/coreapi/handlers.go:215-268,
 internal/coreapi/store.go:250-266): look the key up, publish, save the response. Any number of
 requests interleave, and every call may fail.
 */
module Idempotency {
  import opened Prelude
  import opened Json
  import opened Envelopes

  datatype Agent = Agent(id: string, slug: string)

  // A decoded body; a zero timestamp and a null payload are None.
  datatype Event = Event(category: string, source: string, timestamp: Option<string>, payload: Option<Payload>)

  // `body` is None if it does not decode; an empty key is no key.
  datatype Request = Request(agent: Agent, key: string, body: Option<Event>)

  // The primary key of idempotency_keys; the stored response is the event id it names.
  type Key = (string, string)

  datatype Shared = Shared(table: map<Key, string>, stream: seq<Envelope>, minted: set<string>)

  // What the gateway mints for a request: a UUID and the time.
  datatype Stamp = Stamp(id: string, now: string)

  datatype Pc =
    | Looking
    | Checking
    | Publishing(env: Envelope)
    | Saving(env: Envelope)
    // Replies:
    | Stored(eventId: string)       // 200
    | Created(eventId: string)      // 201
    | Refused(code: nat)            // 400, 500, 503
  {
    predicate Replied() { Stored? || Created? || Refused? }

    function StepsLeft(): nat {
      if Looking? then 4 else if Checking? then 3 else if Publishing? then 2 else if Saving? then 1 else 0
    }
  }

  function KeyOf(r: Request): Key {
    (r.key, r.agent.id)
  }

  predicate Complete(e: Event) {
    e.category != "" && e.timestamp.Some? && e.payload.Some?
  }

  function EnvelopeFor(r: Request, stamp: Stamp): Envelope
    requires r.body.Some? && Complete(r.body.value)
  {
    var e := r.body.value;
    Envelope(stamp.id, r.agent.id, r.agent.slug, e.category, e.source, e.timestamp.value, e.payload, stamp.now)
  }

  // INSERT ... ON CONFLICT (key, agent_id) DO NOTHING
  function Save(table: map<Key, string>, key: Key, eventId: string): map<Key, string> {
    if key in table then table else table[key := eventId]
  }

  function Step(s: Shared, r: Request, pc: Pc, outcome: Outcome, stamp: Stamp): (Shared, Pc) {
    match pc
    case Looking =>
      if r.key == "" then (s, Checking)
      else if !outcome.Ok? then (s, Refused(500))
      else if KeyOf(r) in s.table then (s, Stored(s.table[KeyOf(r)]))
      else (s, Checking)
    case Checking =>
      if r.body.None? || !Complete(r.body.value) then (s, Refused(400))
      else (s.(minted := s.minted + {stamp.id}), Publishing(EnvelopeFor(r, stamp)))
    case Publishing(env) =>
      (if outcome.TookEffect() then s.(stream := s.stream + [env]) else s,
       if !outcome.Ok? then Refused(503) else if r.key != "" then Saving(env) else Created(env.eventId))
    case Saving(env) =>
      (if outcome.TookEffect() then s.(table := Save(s.table, KeyOf(r), env.eventId)) else s, Created(env.eventId))
    case _ => (s, pc)
  }

  function RunAlone(s: Shared, r: Request, pc: Pc, net: nat -> Outcome, stamp: Stamp, i: nat): (Shared, Pc)
    decreases pc.StepsLeft()
  {
    if pc.Replied() then (s, pc) else
      var (s', pc') := Step(s, r, pc, net(i), stamp);
      RunAlone(s', r, pc', net, stamp, i + 1)
  }

  class Gateway {
    var table: map<Key, string>
    var stream: seq<Envelope>
    var minted: set<string>

    ghost function State(): Shared
      reads this
    {
      Shared(table, stream, minted)
    }

    constructor ()
      ensures State() == Shared(map[], [], {})
    {
      table, stream, minted := map[], [], {};
    }

    method SaveIdempotencyResponse(key: Key, eventId: string)
      modifies this`table
      ensures table == Save(old(table), key, eventId)
    {
      if key !in table { table := table[key := eventId]; }
    }

    // handleCollect. net(0) is the lookup, net(1) no call, net(2) the publish, net(3) the save.
    method HandleCollect(r: Request, net: nat -> Outcome, stamp: Stamp) returns (reply: Pc)
      modifies this
      ensures (State(), reply) == RunAlone(old(State()), r, Looking, net, stamp, 0)
    {
      ghost var start := RunAlone(State(), r, Looking, net, stamp, 0);
      if r.key != "" {
        if !net(0).Ok? { return Refused(500); }
        if KeyOf(r) in table { return Stored(table[KeyOf(r)]); }
      }
      assert start == RunAlone(State(), r, Checking, net, stamp, 1);
      if r.body.None? || !Complete(r.body.value) { return Refused(400); }
      var e := r.body.value;
      var env := Envelope(stamp.id, r.agent.id, r.agent.slug, e.category, e.source, e.timestamp.value, e.payload,
        stamp.now);
      minted := minted + {stamp.id};
      assert start == RunAlone(State(), r, Publishing(env), net, stamp, 2);
      if net(2).TookEffect() { stream := stream + [env]; }
      if !net(2).Ok? {
        assert start == RunAlone(State(), r, Refused(503), net, stamp, 3);
        return Refused(503);
      }
      if r.key != "" {
        assert start == RunAlone(State(), r, Saving(env), net, stamp, 3);
        if net(3).TookEffect() { SaveIdempotencyResponse(KeyOf(r), env.eventId); }
        assert start == RunAlone(State(), r, Created(env.eventId), net, stamp, 4);
      } else {
        assert start == RunAlone(State(), r, Created(env.eventId), net, stamp, 3);
      }
      return Created(env.eventId);
    }
  }

  // --- Interleaved runs ---

  datatype Handling = Handling(req: Request, pc: Pc)

  datatype Sys = Sys(s: Shared, requests: seq<Handling>)

  datatype Action = Arrive(req: Request) | Advance(request: nat, outcome: Outcome, stamp: Stamp)

  // A UUID is never minted twice.
  predicate Mintable(s: Shared, pc: Pc, stamp: Stamp) {
    pc.Checking? ==> stamp.id !in s.minted
  }

  function Next(st: Sys, a: Action): Sys {
    match a
    case Arrive(req) => st.(requests := st.requests + [Handling(req, Looking)])
    case Advance(i, outcome, stamp) =>
      if i < |st.requests| && Mintable(st.s, st.requests[i].pc, stamp) then
        var h := st.requests[i];
        var (s', pc') := Step(st.s, h.req, h.pc, outcome, stamp);
        Sys(s', st.requests[i := Handling(h.req, pc')])
      else st
  }

  const INITIAL := Sys(Shared(map[], [], {}), [])

  function Run(actions: seq<Action>): Sys {
    if actions == [] then INITIAL else Next(Run(actions[..|actions| - 1]), actions[|actions| - 1])
  }

  // The request names this key, and its agent is the key's.
  predicate Under(r: Request, key: Key) {
    r.key == key.0 && r.agent.id == key.1
  }

  // The body decodes and has a category, a timestamp and a payload.
  predicate CompleteBody(r: Request) {
    && r.body.Some?
    && r.body.value.category != "" && r.body.value.timestamp.Some? && r.body.value.payload.Some?
  }

  // The envelope was made for this request: it names its agent and carries what its body says.
  ghost predicate IsFor(env: Envelope, r: Request) {
    && CompleteBody(r)
    && env.agentId == r.agent.id && env.agentSlug == r.agent.slug
    && env.category == r.body.value.category && env.source == r.body.value.source
    && Some(env.timestamp) == r.body.value.timestamp && env.payload == r.body.value.payload
  }

  // The request's own event is on the stream under this id.
  ghost predicate PublishedBy(stream: seq<Envelope>, r: Request, eventId: string) {
    exists i | 0 <= i < |stream| :: stream[i].eventId == eventId && IsFor(stream[i], r)
  }

  // A request with this key was answered 201 with this id.
  ghost predicate Answered(requests: seq<Handling>, key: Key, eventId: string) {
    exists i | 0 <= i < |requests| :: Under(requests[i].req, key) && requests[i].pc == Created(eventId)
  }

  // What a request may rely on where it stands.
  ghost predicate Grounded(s: Shared, h: Handling) {
    match h.pc
    case Publishing(env) =>
      && IsFor(env, h.req) && env.eventId in s.minted
      && forall i | 0 <= i < |s.stream| :: s.stream[i].eventId != env.eventId
    case Saving(env) => PublishedBy(s.stream, h.req, env.eventId)
    case Created(id) => PublishedBy(s.stream, h.req, id)
    case Stored(id) => KeyOf(h.req) in s.table && s.table[KeyOf(h.req)] == id
    case _ => true
  }

  // No event id is on the stream twice.
  ghost predicate StreamGrounded(s: Shared) {
    && (forall i | 0 <= i < |s.stream| :: s.stream[i].eventId in s.minted)
    && (forall i, j | 0 <= i < j < |s.stream| :: s.stream[i].eventId != s.stream[j].eventId)
  }

  ghost predicate TableAnswered(st: Sys) {
    forall k | k in st.s.table :: Answered(st.requests, k, st.s.table[k])
  }

  // No two requests are about to publish under the same id.
  ghost predicate OwnIds(requests: seq<Handling>) {
    forall i, j | 0 <= i < j < |requests| && requests[i].pc.Publishing? && requests[j].pc.Publishing? ::
      requests[i].pc.env.eventId != requests[j].pc.env.eventId
  }

  ghost predicate Safe(st: Sys) {
    && StreamGrounded(st.s) && TableAnswered(st) && OwnIds(st.requests)
    && forall i | 0 <= i < |st.requests| :: Grounded(st.s, st.requests[i])
  }

  ghost predicate Extends(s: Shared, s': Shared) {
    && (forall k | k in s.table :: k in s'.table && s'.table[k] == s.table[k])
    && |s.stream| <= |s'.stream| && s.stream == s'.stream[..|s.stream|]
    && s.minted <= s'.minted
  }

  lemma StepExtends(s: Shared, r: Request, pc: Pc, outcome: Outcome, stamp: Stamp)
    ensures Extends(s, Step(s, r, pc, outcome, stamp).0)
  {
  }

  lemma PublishedStays(s: Shared, s': Shared, r: Request, eventId: string)
    requires Extends(s, s') && PublishedBy(s.stream, r, eventId)
    ensures PublishedBy(s'.stream, r, eventId)
  {
    hide IsFor;
    var i :| 0 <= i < |s.stream| && s.stream[i].eventId == eventId && IsFor(s.stream[i], r);
    assert s'.stream[i] == s.stream[i];
  }

  lemma OwnStep(s: Shared, h: Handling, outcome: Outcome, stamp: Stamp)
    requires StreamGrounded(s) && Grounded(s, h) && Mintable(s, h.pc, stamp)
    ensures var (s', pc') := Step(s, h.req, h.pc, outcome, stamp);
      StreamGrounded(s') && Grounded(s', Handling(h.req, pc'))
  {
    var (s', pc') := Step(s, h.req, h.pc, outcome, stamp);
    StepExtends(s, h.req, h.pc, outcome, stamp);
    if h.pc.Publishing? && outcome.TookEffect() {
      assert s'.stream[|s.stream|] == h.pc.env;
      assert PublishedBy(s'.stream, h.req, h.pc.env.eventId);
    }
    if h.pc.Saving? || h.pc.Created? {
      PublishedStays(s, s', h.req, if h.pc.Saving? then h.pc.env.eventId else h.pc.eventId);
    }
    hide PublishedBy;
  }

  // Another request's step.
  lemma OtherStep(s: Shared, h: Handling, other: Handling, outcome: Outcome, stamp: Stamp)
    requires Grounded(s, h) && Grounded(s, other) && Mintable(s, h.pc, stamp)
    requires h.pc.Publishing? && other.pc.Publishing? ==> h.pc.env.eventId != other.pc.env.eventId
    ensures Grounded(Step(s, h.req, h.pc, outcome, stamp).0, other)
  {
    var s' := Step(s, h.req, h.pc, outcome, stamp).0;
    StepExtends(s, h.req, h.pc, outcome, stamp);
    if other.pc.Saving? || other.pc.Created? {
      PublishedStays(s, s', other.req, if other.pc.Saving? then other.pc.env.eventId else other.pc.eventId);
    }
    hide PublishedBy; hide IsFor;
  }

  // A save is followed by the 201 of the request that saved; answers stay.
  lemma AdvanceAnswered(st: Sys, k: nat, outcome: Outcome, stamp: Stamp)
    requires TableAnswered(st) && k < |st.requests| && Mintable(st.s, st.requests[k].pc, stamp)
    ensures TableAnswered(Next(st, Advance(k, outcome, stamp)))
  {
    var st' := Next(st, Advance(k, outcome, stamp));
    var h := st.requests[k];
    forall key, id | Answered(st.requests, key, id) ensures Answered(st'.requests, key, id) {
      var i :| 0 <= i < |st.requests| && Under(st.requests[i].req, key) && st.requests[i].pc == Created(id);
      assert st'.requests[i] == st.requests[i];
    }
    if h.pc.Saving? {
      assert KeyOf(st'.requests[k].req) == KeyOf(h.req) && st'.requests[k].pc == Created(h.pc.env.eventId);
      assert Answered(st'.requests, KeyOf(h.req), h.pc.env.eventId);
    }
    hide Answered;
  }

  lemma NextSafe(st: Sys, a: Action)
    requires Safe(st)
    ensures Safe(Next(st, a)) && Extends(st.s, Next(st, a).s)
  {
    if a.Advance? && a.request < |st.requests| && Mintable(st.s, st.requests[a.request].pc, a.stamp) {
      var k, h := a.request, st.requests[a.request];
      var (s', pc') := Step(st.s, h.req, h.pc, a.outcome, a.stamp);
      AdvanceAnswered(st, k, a.outcome, a.stamp);
      OwnStep(st.s, h, a.outcome, a.stamp);
      StepExtends(st.s, h.req, h.pc, a.outcome, a.stamp);
      assert forall j | 0 <= j < |st.requests| :: Grounded(st.s, st.requests[j]);
      assert OwnIds(st.requests[k := Handling(h.req, pc')]);
      hide Step; hide Grounded; hide StreamGrounded; hide TableAnswered;
      var requests' := st.requests[k := Handling(h.req, pc')];
      forall j | 0 <= j < |requests'| ensures Grounded(s', requests'[j]) {
        if j != k { OtherStep(st.s, h, st.requests[j], a.outcome, a.stamp); }
      }
    } else {
      MoreRequests(st, a);
    }
  }

  lemma MoreRequests(st: Sys, a: Action)
    requires Safe(st)
    requires a.Arrive? || Next(st, a) == st
    ensures Safe(Next(st, a)) && Extends(st.s, Next(st, a).s)
  {
    if a.Arrive? {
      var st' := Next(st, a);
      forall key, id | Answered(st.requests, key, id) ensures Answered(st'.requests, key, id) {
        var i :| 0 <= i < |st.requests| && Under(st.requests[i].req, key) && st.requests[i].pc == Created(id);
        assert st'.requests[i] == st.requests[i];
      }
      hide Answered; hide PublishedBy; hide IsFor;
    }
  }

  lemma {:induction false} EveryRunSafe(actions: seq<Action>)
    ensures Safe(Run(actions))
  {
    if actions != [] {
      EveryRunSafe(actions[..|actions| - 1]);
      NextSafe(Run(actions[..|actions| - 1]), actions[|actions| - 1]);
    }
  }

  // Main result: under any interleaving the stored response for a key never changes.
  lemma {:induction false} StoredResponseStays(actions: seq<Action>, n: nat)
    requires n <= |actions|
    ensures Extends(Run(actions[..n]).s, Run(actions).s)
  {
    if n == |actions| {
      assert actions[..n] == actions;
    } else {
      var init := actions[..|actions| - 1];
      assert init[..n] == actions[..n];
      StoredResponseStays(init, n);
      EveryRunSafe(init);
      NextSafe(Run(init), actions[|actions| - 1]);
    }
  }

  // Main result: every 200 reply repeats the id of a 201 reply under the same key, and all 200
  // replies for a key repeat the same one, the stored one; the event of a 201 reply is the
  // request's own, and is on the stream; no event id is there twice.
  lemma RepliesAgree(actions: seq<Action>)
    ensures var st := Run(actions);
      && (forall i | 0 <= i < |st.requests| && st.requests[i].pc.Stored? ::
            var r, id := st.requests[i].req, st.requests[i].pc.eventId;
            var key := (r.key, r.agent.id);
            key in st.s.table && st.s.table[key] == id && Answered(st.requests, key, id))
      && (forall i | 0 <= i < |st.requests| && st.requests[i].pc.Created? ::
            PublishedBy(st.s.stream, st.requests[i].req, st.requests[i].pc.eventId))
      && (forall i, j | 0 <= i < j < |st.s.stream| :: st.s.stream[i].eventId != st.s.stream[j].eventId)
  {
    var st := Run(actions);
    EveryRunSafe(actions);
    hide Run;
    assert forall i | 0 <= i < |st.requests| :: Grounded(st.s, st.requests[i]);
    hide Answered; hide PublishedBy;
  }

  // --- Runs without overlap ---

  // A request that is handled from start to end before the next one arrives.
  datatype Visit = Visit(req: Request, net: nat -> Outcome, stamp: Stamp)

  function After(visits: seq<Visit>): Shared {
    if visits == [] then INITIAL.s else
      var v := visits[|visits| - 1];
      RunAlone(After(visits[..|visits| - 1]), v.req, Looking, v.net, v.stamp, 0).0
  }

  // This visit put an event on the stream.
  ghost predicate PublishedIn(visits: seq<Visit>, i: nat)
    requires i < |visits|
  {
    After(visits[..i + 1]).stream != After(visits[..i]).stream
  }

  // Its publish took effect and was reported, and so did its save.
  predicate SavesIfReached(v: Visit) {
    v.net(2).Ok? && v.net(3).TookEffect()
  }

  predicate PublishesIfReached(v: Visit) {
    (v.req.key == "" || v.net(0).Ok?) && CompleteBody(v.req) && v.net(2).TookEffect()
  }

  // What one visit does.
  lemma VisitEffect(s: Shared, v: Visit)
    ensures var s' := RunAlone(s, v.req, Looking, v.net, v.stamp, 0).0;
      var publishes := PublishesIfReached(v) && (v.req.key == "" || KeyOf(v.req) !in s.table);
      && (publishes ==> |s'.stream| == |s.stream| + 1 && s'.stream[..|s.stream|] == s.stream
                        && IsFor(s'.stream[|s.stream|], v.req) && s'.stream[|s.stream|].eventId == v.stamp.id
                        && s'.stream[|s.stream|].receivedAt == v.stamp.now)
      && (!publishes ==> s'.stream == s.stream)
      && s'.table == (if publishes && v.req.key != "" && SavesIfReached(v)
                      then s.table[KeyOf(v.req) := v.stamp.id] else s.table)
  {
    var (s1, pc1) := Step(s, v.req, Looking, v.net(0), v.stamp);
    if pc1.Checking? {
      var (s2, pc2) := Step(s1, v.req, pc1, v.net(1), v.stamp);
      assert RunAlone(s, v.req, Looking, v.net, v.stamp, 0) == RunAlone(s2, v.req, pc2, v.net, v.stamp, 2);
      if pc2.Publishing? {
        var (s3, pc3) := Step(s2, v.req, pc2, v.net(2), v.stamp);
        assert RunAlone(s2, v.req, pc2, v.net, v.stamp, 2) == RunAlone(s3, v.req, pc3, v.net, v.stamp, 3);
        var (s4, pc4) := Step(s3, v.req, pc3, v.net(3), v.stamp);
        assert pc3.Saving? ==> RunAlone(s3, v.req, pc3, v.net, v.stamp, 3) == (s4, pc4);
      }
    }
  }

  ghost predicate SavedBefore(visits: seq<Visit>, n: nat, key: Key)
    requires n <= |visits|
  {
    exists j | 0 <= j < n :: Under(visits[j].req, key) && PublishedIn(visits, j) && SavesIfReached(visits[j])
  }

  lemma Cut(visits: seq<Visit>, i: nat)
    requires i < |visits|
    ensures After(visits[..i + 1])
      == RunAlone(After(visits[..i]), visits[i].req, Looking, visits[i].net, visits[i].stamp, 0).0
  {
    assert visits[..i + 1][..i] == visits[..i];
  }

  lemma {:induction false} InTableIffSaved(visits: seq<Visit>, n: nat, key: Key)
    requires n <= |visits| && key.0 != ""
    ensures key in After(visits[..n]).table <==> SavedBefore(visits, n, key)
  {
    if n > 0 {
      var v := visits[n - 1];
      InTableIffSaved(visits, n - 1, key);
      SavedNext(visits, n - 1, key);
      Cut(visits, n - 1);
      VisitEffect(After(visits[..n - 1]), v);
      assert PublishedIn(visits, n - 1)
        <==> PublishesIfReached(v) && (v.req.key == "" || KeyOf(v.req) !in After(visits[..n - 1]).table);
    }
    hide RunAlone; hide After; hide PublishesIfReached; hide SavedBefore; hide PublishedIn; hide SavesIfReached;
  }

  lemma SavedNext(visits: seq<Visit>, n: nat, key: Key)
    requires n < |visits|
    ensures SavedBefore(visits, n + 1, key) <==>
      SavedBefore(visits, n, key)
      || (Under(visits[n].req, key) && PublishedIn(visits, n) && SavesIfReached(visits[n]))
  {
    hide PublishedIn; hide SavesIfReached;
  }

  // Main result: without overlap, a visit publishes exactly when it gets that far and, if it has
  // a key, no earlier visit with that key published and saved its response.
  lemma PublishesIffUnsaved(visits: seq<Visit>, i: nat)
    requires i < |visits|
    ensures PublishedIn(visits, i) <==>
      PublishesIfReached(visits[i]) && (visits[i].req.key == "" || !SavedBefore(visits, i, KeyOf(visits[i].req)))
  {
    Cut(visits, i);
    VisitEffect(After(visits[..i]), visits[i]);
    if visits[i].req.key != "" { InTableIffSaved(visits, i, KeyOf(visits[i].req)); }
    hide RunAlone; hide After; hide SavedBefore; hide PublishesIfReached;
  }

  // So where every publish that took effect is reported and saved, each key publishes once: its
  // first visit that can, and never again.
  lemma PublishesOnce(visits: seq<Visit>, key: Key)
    requires key.0 != ""
    requires forall i | 0 <= i < |visits| && Under(visits[i].req, key) && PublishedIn(visits, i) ::
      SavesIfReached(visits[i])
    ensures forall i, j | 0 <= i < j < |visits| && Under(visits[i].req, key) && Under(visits[j].req, key) ::
      !(PublishedIn(visits, i) && PublishedIn(visits, j))
    ensures (exists i | 0 <= i < |visits| :: Under(visits[i].req, key) && PublishedIn(visits, i))
       <==> (exists i | 0 <= i < |visits| :: Under(visits[i].req, key) && PublishesIfReached(visits[i]))
  {
    hide PublishedIn; hide PublishesIfReached; hide SavesIfReached;
    forall i | 0 <= i < |visits|
      ensures PublishedIn(visits, i) <==>
        PublishesIfReached(visits[i]) && (visits[i].req.key == "" || !SavedBefore(visits, i, KeyOf(visits[i].req)))
    {
      PublishesIffUnsaved(visits, i);
    }
    forall i, j | 0 <= i < j < |visits| && Under(visits[i].req, key) && Under(visits[j].req, key)
      && PublishedIn(visits, i)
      ensures !PublishedIn(visits, j)
    {
      assert SavedBefore(visits, j, key);
    }
  }

  // With overlap it does not hold: two requests with one key can both pass the lookup, and then
  // take turns.
  function InTurn(i: Stamp, j: Stamp): seq<Action> {
    [Advance(0, Ok, i)] + [Advance(1, Ok, j)]
  }

  function Overlap(r: Request, i: Stamp, j: Stamp): seq<Action> {
    [Arrive(r)] + [Arrive(r)] + InTurn(i, j) + InTurn(i, j) + InTurn(i, j) + InTurn(i, j)
  }

  lemma OverlapPublishesTwice(r: Request, i: Stamp, j: Stamp)
    requires r.key != "" && CompleteBody(r) && i.id != j.id
    ensures var st := Run(Overlap(r, i, j));
      && st.requests == [Handling(r, Created(i.id)), Handling(r, Created(j.id))]
      && |st.s.stream| == 2 && IsFor(st.s.stream[0], r) && IsFor(st.s.stream[1], r)
      && st.s.stream[0].eventId == i.id && st.s.stream[1].eventId == j.id
  {
    var start := [Arrive(r)] + [Arrive(r)];
    var s0, s1 := INITIAL.s, Shared(map[], [], {i.id, j.id});
    var e1, e2 := EnvelopeFor(r, i), EnvelopeFor(r, j);
    var s2 := s1.(stream := [e1, e2]);
    RunTwo([], Arrive(r), Arrive(r));
    assert [] + [Arrive(r)] + [Arrive(r)] == start;
    assert Run([]) == INITIAL;
    assert Run(start) == Sys(s0, [Handling(r, Looking), Handling(r, Looking)]);
    hide Run; hide InTurn; hide Complete;
    RunInTurn(start, s0, r, Looking, Looking, i, j);
    var looked := start + InTurn(i, j);
    RunInTurn(looked, s0, r, Checking, Checking, i, j);
    var checked := looked + InTurn(i, j);
    RunInTurn(checked, s1, r, Publishing(e1), Publishing(e2), i, j);
    var published := checked + InTurn(i, j);
    RunInTurn(published, s2, r, Saving(e1), Saving(e2), i, j);
  }

  lemma RunInTurn(actions: seq<Action>, s: Shared, r: Request, p: Pc, q: Pc, i: Stamp, j: Stamp)
    requires Run(actions) == Sys(s, [Handling(r, p), Handling(r, q)])
    requires Mintable(s, p, i) && Mintable(Step(s, r, p, Ok, i).0, q, j)
    ensures var (s1, p1) := Step(s, r, p, Ok, i);
      var (s2, q2) := Step(s1, r, q, Ok, j);
      Run(actions + InTurn(i, j)) == Sys(s2, [Handling(r, p1), Handling(r, q2)])
  {
    RunTwo(actions, Advance(0, Ok, i), Advance(1, Ok, j));
    assert actions + InTurn(i, j) == actions + [Advance(0, Ok, i)] + [Advance(1, Ok, j)];
    BothStep(s, r, p, q, i, j);
    hide Run; hide Step; hide Next;
  }

  lemma BothStep(s: Shared, r: Request, p: Pc, q: Pc, i: Stamp, j: Stamp)
    requires Mintable(s, p, i) && Mintable(Step(s, r, p, Ok, i).0, q, j)
    ensures var (s1, p1) := Step(s, r, p, Ok, i);
      var (s2, q2) := Step(s1, r, q, Ok, j);
      Next(Next(Sys(s, [Handling(r, p), Handling(r, q)]), Advance(0, Ok, i)), Advance(1, Ok, j))
        == Sys(s2, [Handling(r, p1), Handling(r, q2)])
  {
    hide Step;
  }

  lemma RunMore(actions: seq<Action>, a: Action)
    ensures Run(actions + [a]) == Next(Run(actions), a)
  {
    assert (actions + [a])[..|actions|] == actions;
  }

  lemma RunTwo(actions: seq<Action>, a: Action, b: Action)
    ensures Run(actions + [a] + [b]) == Next(Next(Run(actions), a), b)
  {
    RunMore(actions, a);
    RunMore(actions + [a], b);
  }
}
