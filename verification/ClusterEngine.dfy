/**
 The classifier's engine (classifier/app/engine.py:22-183, classifier/app/backends.py:59-82): it
 gathers quarantined events into clusters of one shape, and at a threshold starts jobs that
 propose a schema. An event is added in one step; a job takes one step per awaited call.
 */
module ClusterEngine {
  import opened Prelude
  import opened Json
  import opened SchemaInference
  import opened Envelopes
  import opened RegistryTables

  // Clusters are kept by category hint and shape.
  datatype Key = Key(hint: string, shape: seq<(string, Tag)>)

  datatype Cluster = Cluster(hint: string, eventIds: seq<string>, representative: Payload, samples: seq<Payload>,
                             submitted: bool)

  // What a job was started for: a cluster of the engine, or event ids given by hand.
  datatype Source = ByHand | Gathered(key: Key)

  datatype Status = Pending | Running | Completed | JobFailed

  datatype Job = Job(eventIds: seq<string>, source: Source, status: Status, category: string, proposal: Option<nat>)

  datatype Classification = Classification(category: string, document: Schema, routing: Routing, heuristic: bool)

  // A proposal as the registry receives it, with the cluster it is for.
  datatype Proposal = Proposal(category: string, document: Schema, routing: Routing, sampleIds: seq<string>,
                               heuristic: bool, source: Source)

  datatype State = State(clusters: map<Key, Cluster>, jobs: map<string, Job>, proposals: seq<Proposal>)

  // --- Events ---

  // event.get("payload") or {}
  function PayloadOf(e: Envelope): Payload {
    if e.payload.Some? then e.payload.value else map[]
  }

  function KeyFor(e: Envelope): Key {
    Key(e.category, ShapeKey(PayloadOf(e)))
  }

  function FirstFive<T>(s: seq<T>): (r: seq<T>)
    ensures r <= s && |r| == if |s| <= 5 then |s| else 5
  {
    if |s| <= 5 then s else s[..5]
  }

  // Two events go to one cluster exactly when they have one category and payloads of one shape; a
  // null payload counts as an empty object.
  lemma SameClusterIff(e: Envelope, f: Envelope)
    ensures KeyFor(e) == KeyFor(f) <==>
      && e.category == f.category
      && SameShape(if e.payload.Some? then e.payload.value else map[],
                   if f.payload.Some? then f.payload.value else map[])
  {
    ShapeKeyIsShape(PayloadOf(e), PayloadOf(f));
    hide ShapeKey; hide SameShape;
  }

  // The cluster the event goes to, before it is added.
  function ClusterFor(s: State, e: Envelope): Cluster {
    if KeyFor(e) in s.clusters then s.clusters[KeyFor(e)] else Cluster(e.category, [], PayloadOf(e), [], false)
  }

  function Absorb(c: Cluster, e: Envelope): Cluster {
    c.(eventIds := if e.eventId != "" && e.eventId !in c.eventIds then c.eventIds + [e.eventId] else c.eventIds,
       samples := if |c.samples| < 5 then c.samples + [PayloadOf(e)] else c.samples)
  }

  function AddEvent(s: State, threshold: int, e: Envelope, jobId: string): State {
    var c := Absorb(ClusterFor(s, e), e);
    var s1 := s.(clusters := s.clusters[KeyFor(e) := c]);
    if |c.eventIds| >= threshold && !c.submitted
    then s1.(jobs := s1.jobs[jobId := Job(FirstFive(c.eventIds), Gathered(KeyFor(e)), Pending, "", None)])
    else s1
  }

  // --- Jobs ---

  datatype Backend = Heuristic | Llm

  // How a post to the registry ends: 2xx, 4xx or 5xx, or an exception, after which the proposal
  // may exist all the same.
  datatype Post = Accepted | Declined | Broken(arrived: bool)

  // What the world contributes to a step of a job: the backend that is active, what it replies
  // if it is a language model, the rows a manual job loads, and how the post ends.
  datatype Answer = Answer(backend: Backend, reply: Option<Classification>, rows: Option<seq<Envelope>>, post: Post)

  // Where a job is; `own` is the cluster a manual job builds from the rows it loads.
  datatype Pc =
    | Scheduled
    | Loading
    | Classifying(backend: Backend, own: Option<Cluster>, hint: string, samples: seq<Payload>)
    | Submitting(own: Option<Cluster>, result: Classification)
    | Retrying(own: Option<Cluster>, result: Classification)       // once more, without the sample ids
    | Over

  // HeuristicBackend.classify
  function ClassifyHeuristically(hint: string, samples: seq<Payload>): Classification {
    Classification(if hint != "" then hint else "unknown_shape", Infer(samples), Routing("postgres", []), true)
  }

  function ClusterOf(s: State, source: Source, own: Option<Cluster>): Option<Cluster> {
    match source
    case ByHand => own
    case Gathered(key) => if key in s.clusters then Some(s.clusters[key]) else None
  }

  function SamplesOf(c: Cluster): seq<Payload> {
    if c.samples != [] then c.samples else [c.representative]
  }

  // The cluster's category is kept; the classifier's own name only fills in for an empty one.
  function ProposalCategory(c: Cluster, result: Classification): string {
    if c.hint != "" then c.hint else result.category
  }

  function WithJob(s: State, id: string, job: Job): State {
    s.(jobs := s.jobs[id := job])
  }

  function Fail(s: State, id: string): (State, Pc)
    requires id in s.jobs
  {
    (WithJob(s, id, s.jobs[id].(status := JobFailed)), Over)
  }

  function Receive(s: State, id: string, c: Cluster, result: Classification, sampleIds: seq<string>): State
    requires id in s.jobs
  {
    s.(proposals := s.proposals + [Proposal(ProposalCategory(c, result), result.document, result.routing, sampleIds,
      result.heuristic, s.jobs[id].source)])
  }

  function MarkSubmitted(s: State, source: Source): State {
    if source.Gathered? && source.key in s.clusters
    then s.(clusters := s.clusters[source.key := s.clusters[source.key].(submitted := true)]) else s
  }

  function Complete(s: State, id: string, result: Classification, proposal: nat): (State, Pc)
    requires id in s.jobs
  {
    var s1 := MarkSubmitted(s, s.jobs[id].source);
    var job := s.jobs[id];
    (WithJob(s1, id, job.(status := Completed, category := result.category, proposal := Some(proposal))), Over)
  }

  // One attempt to submit.
  function Submit(s: State, id: string, c: Cluster, result: Classification, sampleIds: seq<string>,
                  own: Option<Cluster>, post: Post): (State, Pc)
    requires id in s.jobs
  {
    match post
    case Accepted => Complete(Receive(s, id, c, result, sampleIds), id, result, |s.proposals|)
    case Declined => if sampleIds != [] then (s, Retrying(own, result)) else Fail(s, id)
    case Broken(arrived) => Fail(if arrived then Receive(s, id, c, result, sampleIds) else s, id)
  }

  // What the active backend answers.
  function Classified(backend: Backend, hint: string, samples: seq<Payload>,
                      reply: Option<Classification>): Option<Classification> {
    if backend.Heuristic? then Some(ClassifyHeuristically(hint, samples))
    else if reply.Some? then Some(reply.value.(heuristic := false))
    else None
  }

  // The cluster a manual job builds.
  function FromRows(rows: seq<Envelope>, eventIds: seq<string>): Cluster
    requires rows != []
  {
    var payloads := seq(|rows|, i requires 0 <= i < |rows| => PayloadOf(rows[i]));
    Cluster(rows[0].category, eventIds, payloads[0], FirstFive(payloads), false)
  }

  function JobStep(s: State, id: string, pc: Pc, a: Answer): (State, Pc)
    requires id in s.jobs
  {
    var job := s.jobs[id];
    match pc
    case Scheduled =>
      var s1 := WithJob(s, id, job.(status := Running));
      (match ClusterOf(s, job.source, None)
       case None => (s1, Loading)
       case Some(c) => (s1, Classifying(a.backend, None, c.hint, SamplesOf(c))))
    case Loading =>
      if a.rows.None? || a.rows.value == [] then Fail(s, id)
      else
        var c := FromRows(a.rows.value, job.eventIds);
        (s, Classifying(a.backend, Some(c), c.hint, SamplesOf(c)))
    case Classifying(backend, own, hint, samples) =>
      (match Classified(backend, hint, samples, a.reply)
       case None => Fail(s, id)
       case Some(result) => (s, Submitting(own, result)))
    case Submitting(own, result) =>
      (match ClusterOf(s, job.source, own)
       case None => Fail(s, id)
       case Some(c) => Submit(s, id, c, result, FirstFive(c.eventIds), own, a.post))
    case Retrying(own, result) =>
      (match ClusterOf(s, job.source, own)
       case None => Fail(s, id)
       case Some(c) => Submit(s, id, c, result, [], own, a.post))
    case Over => (s, Over)
  }

  function StepsLeft(pc: Pc): nat {
    match pc
    case Scheduled => 5
    case Loading => 4
    case Classifying(_, _, _, _) => 3
    case Submitting(_, _) => 2
    case Retrying(_, _) => 1
    case Over => 0
  }

  // A job that runs without anything else happening.
  function RunJob(s: State, id: string, pc: Pc, net: nat -> Answer, i: nat): (r: State)
    requires id in s.jobs
    ensures id in r.jobs
    decreases StepsLeft(pc)
  {
    if pc.Over? then s else
      var (s', pc') := JobStep(s, id, pc, net(i));
      RunJob(s', id, pc', net, i + 1)
  }

  lemma RunUnfolds(s: State, id: string, pc: Pc, net: nat -> Answer, i: nat)
    requires id in s.jobs
    ensures RunJob(s, id, pc, net, i) ==
      if pc.Over? then s else RunJob(JobStep(s, id, pc, net(i)).0, id, JobStep(s, id, pc, net(i)).1, net, i + 1)
  {
    hide JobStep;
  }

  // From the classification on.
  lemma ClassifyingRuns(s: State, id: string, backend: Backend, own: Option<Cluster>, hint: string,
                        samples: seq<Payload>, net: nat -> Answer, i: nat)
    requires id in s.jobs
    ensures RunJob(s, id, Classifying(backend, own, hint, samples), net, i) ==
      match Classified(backend, hint, samples, net(i).reply)
      case None => Fail(s, id).0
      case Some(result) => RunJob(s, id, Submitting(own, result), net, i + 1)
  {
    RunUnfolds(s, id, Classifying(backend, own, hint, samples), net, i);
    RunUnfolds(Fail(s, id).0, id, Over, net, i + 1);
    hide RunJob; hide ClassifyHeuristically; hide Submit;
  }

  // From the start on.
  lemma ScheduledRuns(s: State, id: string, net: nat -> Answer)
    requires id in s.jobs
    ensures var job := s.jobs[id];
      var s1 := WithJob(s, id, job.(status := Running));
      RunJob(s, id, Scheduled, net, 0) ==
        match ClusterOf(s, job.source, None)
        case Some(c) => RunJob(s1, id, Classifying(net(0).backend, None, c.hint, SamplesOf(c)), net, 1)
        case None =>
          if net(1).rows.None? || net(1).rows.value == [] then Fail(s1, id).0
          else
            var c := FromRows(net(1).rows.value, job.eventIds);
            RunJob(s1, id, Classifying(net(1).backend, Some(c), c.hint, SamplesOf(c)), net, 2)
  {
    var s1 := WithJob(s, id, s.jobs[id].(status := Running));
    RunUnfolds(s, id, Scheduled, net, 0);
    RunUnfolds(s1, id, Loading, net, 1);
    RunUnfolds(Fail(s1, id).0, id, Over, net, 2);
    hide RunJob; hide Submit; hide SamplesOf; hide PayloadOf; hide FirstFive;
  }

  // From the post on.
  lemma SubmittingRuns(s: State, id: string, c: Cluster, own: Option<Cluster>, result: Classification,
                       net: nat -> Answer, i: nat)
    requires id in s.jobs && ClusterOf(s, s.jobs[id].source, own) == Some(c)
    ensures var (s1, pc1) := Submit(s, id, c, result, FirstFive(c.eventIds), own, net(i).post);
      RunJob(s, id, Submitting(own, result), net, i) ==
        if pc1.Over? then s1 else Submit(s, id, c, result, [], own, net(i + 1).post).0
  {
    RunUnfolds(s, id, Submitting(own, result), net, i);
    var (s1, pc1) := Submit(s, id, c, result, FirstFive(c.eventIds), own, net(i).post);
    RunUnfolds(s1, id, pc1, net, i + 1);
    if pc1.Retrying? {
      var (s2, pc2) := Submit(s, id, c, result, [], own, net(i + 1).post);
      RunUnfolds(s2, id, pc2, net, i + 2);
    }
    hide RunJob;
  }

  // A job of a gathered cluster, with the heuristic backend and an accepted post, proposes the
  // schema of the cluster's samples under the cluster's category and marks the cluster.
  lemma HeuristicJobProposes(s: State, id: string, k: Key, net: nat -> Answer)
    requires id in s.jobs && s.jobs[id].source == Gathered(k) && k in s.clusters
    requires net(0).backend.Heuristic? && net(2).post.Accepted?
    ensures var c := s.clusters[k];
      var r := RunJob(s, id, Scheduled, net, 0);
      && r.clusters == s.clusters[k := c.(submitted := true)]
      && r.jobs[id].status == Completed && r.jobs[id].proposal == Some(|s.proposals|)
      && r.proposals == s.proposals + [Proposal(if c.hint != "" then c.hint else "unknown_shape", Infer(SamplesOf(c)),
                                                Routing("postgres", []), FirstFive(c.eventIds), true, Gathered(k))]
  {
    var c := s.clusters[k];
    var s1 := WithJob(s, id, s.jobs[id].(status := Running));
    hide RunJob; hide Infer; hide SamplesOf; hide FirstFive;
    ScheduledRuns(s, id, net);
    ClassifyingRuns(s1, id, Heuristic, None, c.hint, SamplesOf(c), net, 1);
    SubmittingRuns(s1, id, c, None, ClassifyHeuristically(c.hint, SamplesOf(c)), net, 2);
  }

  // --- Interleaved runs ---

  // `running` says where each job stands; `events` are all events added so far.
  datatype Sys = Sys(s: State, running: map<string, Pc>, events: seq<Envelope>)

  datatype Action =
    | Event(e: Envelope, jobId: string)
    | Manual(eventIds: seq<string>, jobId: string)
    | Advance(jobId: string, answer: Answer)

  // Job ids are newly minted UUIDs.
  function Next(st: Sys, threshold: int, a: Action): Sys {
    match a
    case Event(e, jobId) =>
      if jobId in st.s.jobs then st else
        var s' := AddEvent(st.s, threshold, e, jobId);
        Sys(s', if jobId in s'.jobs then st.running[jobId := Scheduled] else st.running, st.events + [e])
    case Manual(eventIds, jobId) =>
      if jobId in st.s.jobs || eventIds == [] then st else
        st.(s := WithJob(st.s, jobId, Job(eventIds, ByHand, Pending, "", None)),
          running := st.running[jobId := Scheduled])
    case Advance(jobId, answer) =>
      if jobId in st.s.jobs && jobId in st.running then
        var (s', pc') := JobStep(st.s, jobId, st.running[jobId], answer);
        st.(s := s', running := st.running[jobId := pc'])
      else st
  }

  const INITIAL := Sys(State(map[], map[], []), map[], [])

  function Run(threshold: int, actions: seq<Action>): Sys {
    if actions == [] then INITIAL else Next(Run(threshold, actions[..|actions| - 1]), threshold, actions[|actions| - 1])
  }

  // --- What the clusters hold ---

  // The payloads of the events that went to a cluster, in order, and their ids.
  function PayloadsAt(events: seq<Envelope>, k: Key): seq<Payload> {
    if events == [] then []
    else
      PayloadsAt(events[..|events| - 1], k)
      + if KeyFor(events[|events| - 1]) == k then [PayloadOf(events[|events| - 1])] else []
  }

  function IdsAt(events: seq<Envelope>, k: Key): set<string> {
    set e | e in events && KeyFor(e) == k && e.eventId != "" :: e.eventId
  }

  ghost predicate NoDuplicates<T>(s: seq<T>) {
    forall i, j | 0 <= i < j < |s| :: s[i] != s[j]
  }

  ghost predicate AllOfShape(ps: seq<Payload>, k: Key) {
    forall p | p in ps :: ShapeKey(p) == k.shape
  }

  // A cluster holds its events' ids once each, and its samples are the first at most five
  // payloads added, all of its shape.
  ghost predicate Holds(c: Cluster, events: seq<Envelope>, k: Key) {
    var ps := PayloadsAt(events, k);
    && NoDuplicates(c.eventIds) && (forall id :: id in c.eventIds <==> id in IdsAt(events, k))
    && ps != [] && c.samples == FirstFive(ps) && c.representative == ps[0]
    && AllOfShape(ps, k) && AllOfShape(c.samples, k)
    && c.hint == k.hint
  }

  ghost predicate ClustersHold(s: State, events: seq<Envelope>) {
    && (forall k | k in s.clusters :: Holds(s.clusters[k], events, k))
    && (forall k | k !in s.clusters :: PayloadsAt(events, k) == [] && IdsAt(events, k) == {})
  }

  lemma OneMoreEvent(events: seq<Envelope>, e: Envelope, k: Key)
    ensures PayloadsAt(events + [e], k) == PayloadsAt(events, k) + if KeyFor(e) == k then [PayloadOf(e)] else []
    ensures IdsAt(events + [e], k) == IdsAt(events, k) + if KeyFor(e) == k && e.eventId != "" then {e.eventId} else {}
  {
    hide ShapeKey;
    assert (events + [e])[..|events|] == events;
    assert forall f :: f in events + [e] <==> f in events || f == e;
  }

  lemma AbsorbIds(c: Cluster, ids: set<string>, e: Envelope)
    requires NoDuplicates(c.eventIds) && (forall id :: id in c.eventIds <==> id in ids)
    ensures var c' := Absorb(c, e);
      NoDuplicates(c'.eventIds)
      && forall id :: id in c'.eventIds <==> id in ids + if e.eventId != "" then {e.eventId} else {}
  {
  }

  lemma AbsorbSamples(c: Cluster, ps: seq<Payload>, e: Envelope)
    requires c.samples == FirstFive(ps)
    ensures Absorb(c, e).samples == FirstFive(ps + [PayloadOf(e)])
  {
    hide PayloadOf;
  }

  lemma FirstFiveOf(ps: seq<Payload>, k: Key)
    requires AllOfShape(ps, k)
    ensures AllOfShape(FirstFive(ps), k)
  {
    hide ShapeKey;
  }

  lemma AbsorbHolds(s: State, events: seq<Envelope>, e: Envelope)
    requires ClustersHold(s, events)
    ensures Holds(Absorb(ClusterFor(s, e), e), events + [e], KeyFor(e))
  {
    var k, c := KeyFor(e), ClusterFor(s, e);
    var ps := PayloadsAt(events, k);
    OneMoreEvent(events, e, k);
    hide PayloadsAt; hide IdsAt; hide ShapeKey; hide PayloadOf;
    if k in s.clusters { assert Holds(s.clusters[k], events, k); } else { assert ps == [] && IdsAt(events, k) == {}; }
    hide ClustersHold;
    AbsorbIds(c, IdsAt(events, k), e);
    AbsorbSamples(c, ps, e);
    assert AllOfShape(ps + [PayloadOf(e)], k);
    FirstFiveOf(ps + [PayloadOf(e)], k);
    hide NoDuplicates; hide AllOfShape; hide FirstFive;
    assert Absorb(c, e).hint == c.hint && Absorb(c, e).representative == c.representative;
    hide Absorb;
  }

  lemma HoldsElsewhere(c: Cluster, events: seq<Envelope>, e: Envelope, k: Key)
    requires k != KeyFor(e)
    ensures Holds(c, events, k) ==> Holds(c, events + [e], k)
    ensures PayloadsAt(events, k) == [] && IdsAt(events, k) == {}
      ==> PayloadsAt(events + [e], k) == [] && IdsAt(events + [e], k) == {}
  {
    OneMoreEvent(events, e, k);
    assert PayloadsAt(events, k) + [] == PayloadsAt(events, k) && IdsAt(events, k) + {} == IdsAt(events, k);
    hide PayloadsAt; hide IdsAt; hide ShapeKey; hide AllOfShape; hide NoDuplicates; hide FirstFive;
  }

  lemma AddEventHolds(s: State, events: seq<Envelope>, threshold: int, e: Envelope, jobId: string)
    requires ClustersHold(s, events)
    ensures ClustersHold(AddEvent(s, threshold, e, jobId), events + [e])
  {
    var s' := AddEvent(s, threshold, e, jobId);
    AbsorbHolds(s, events, e);
    assert s'.clusters == s.clusters[KeyFor(e) := Absorb(ClusterFor(s, e), e)];
    hide AddEvent; hide Absorb; hide PayloadsAt; hide IdsAt; hide KeyFor; hide ClusterFor; hide Holds;
    forall k | k in s'.clusters && k != KeyFor(e) ensures Holds(s'.clusters[k], events + [e], k) {
      HoldsElsewhere(s.clusters[k], events, e, k);
    }
    forall k | k !in s'.clusters ensures PayloadsAt(events + [e], k) == [] && IdsAt(events + [e], k) == {} {
      HoldsElsewhere(Absorb(ClusterFor(s, e), e), events, e, k);
    }
  }

  // --- What the jobs rely on ---

  // What the heuristic backend proposes for a cluster accepts every payload of its shape.
  ghost predicate AcceptsShape(document: Schema, k: Key) {
    forall q: Payload | ShapeKey(q) == k.shape :: Accepts(document, q)
  }

  ghost predicate ResultFits(result: Classification, k: Key) {
    result.heuristic ==> AcceptsShape(result.document, k) && result.routing == Routing("postgres", [])
  }

  ghost predicate PcFits(pc: Pc, k: Key) {
    match pc
    case Loading => false
    case Classifying(_, _, hint, samples) => hint == k.hint && samples != [] && AllOfShape(samples, k)
    case Submitting(_, result) => ResultFits(result, k)
    case Retrying(_, result) => ResultFits(result, k)
    case _ => true
  }

  // A job of a gathered cluster was started at the threshold, and its completion is recorded
  // in the cluster.
  ghost predicate JobFits(s: State, threshold: int, job: Job, pc: Pc) {
    && (job.status.Pending? <==> pc.Scheduled?)
    && (job.status.Completed? || job.status.JobFailed? <==> pc.Over?)
    && (job.source.Gathered? ==>
          && job.source.key in s.clusters
          && |s.clusters[job.source.key].eventIds| >= threshold
          && (job.status.Completed? ==> s.clusters[job.source.key].submitted)
          && PcFits(pc, job.source.key))
  }

  // The category rule, and what a heuristic proposal accepts.
  ghost predicate ProposalFits(p: Proposal) {
    p.source.Gathered? ==>
      && (p.source.key.hint != "" ==> p.category == p.source.key.hint)
      && (p.heuristic ==> AcceptsShape(p.document, p.source.key) && p.routing == Routing("postgres", []))
  }

  ghost predicate Sound(st: Sys, threshold: int) {
    && ClustersHold(st.s, st.events)
    && st.running.Keys == st.s.jobs.Keys
    && (forall id | id in st.s.jobs :: JobFits(st.s, threshold, st.s.jobs[id], st.running[id]))
    && (forall i | 0 <= i < |st.s.proposals| :: ProposalFits(st.s.proposals[i]))
  }

  // Clusters gain ids and are marked as submitted; nothing is taken back.
  ghost predicate ClustersGrow(s: State, s': State) {
    forall k | k in s.clusters ::
      && k in s'.clusters
      && |s.clusters[k].eventIds| <= |s'.clusters[k].eventIds|
      && (s.clusters[k].submitted ==> s'.clusters[k].submitted)
  }

  lemma JobFitsStill(s: State, s': State, threshold: int, job: Job, pc: Pc)
    requires JobFits(s, threshold, job, pc) && ClustersGrow(s, s')
    ensures JobFits(s', threshold, job, pc)
  {
    hide PcFits;
  }

  // A step of a job only touches its own record, marks its own cluster and adds a proposal.
  lemma JobStepTouches(s: State, id: string, pc: Pc, a: Answer)
    requires id in s.jobs
    ensures var s' := JobStep(s, id, pc, a).0;
      && s'.jobs == s.jobs[id := s'.jobs[id]]
      && s'.jobs[id].source == s.jobs[id].source
      && (s'.clusters == s.clusters || s'.clusters == MarkSubmitted(s, s.jobs[id].source).clusters)
      && (s'.clusters != s.clusters ==> s'.jobs[id].status.Completed?)
  {
    hide ClassifyHeuristically; hide SamplesOf; hide PayloadOf; hide ProposalCategory; hide FirstFive;
    assert s.jobs == s.jobs[id := s.jobs[id]];
  }

  lemma MarkHolds(s: State, events: seq<Envelope>, source: Source)
    requires ClustersHold(s, events)
    ensures var s' := MarkSubmitted(s, source); ClustersHold(s', events) && ClustersGrow(s, s')
  {
    hide PayloadsAt; hide IdsAt; hide ShapeKey; hide AllOfShape; hide NoDuplicates; hide FirstFive;
  }

  lemma SamplesFit(s: State, events: seq<Envelope>, k: Key)
    requires ClustersHold(s, events) && k in s.clusters
    ensures var c := s.clusters[k]; c.hint == k.hint && SamplesOf(c) != [] && AllOfShape(SamplesOf(c), k)
  {
    hide PayloadsAt; hide IdsAt; hide ShapeKey; hide NoDuplicates;
    assert Holds(s.clusters[k], events, k);
  }

  lemma HeuristicFits(samples: seq<Payload>, hint: string, k: Key)
    requires samples != [] && AllOfShape(samples, k)
    ensures ResultFits(ClassifyHeuristically(hint, samples), k)
  {
    forall q: Payload | ShapeKey(q) == k.shape ensures Accepts(Infer(samples), q) {
      hide ShapeKey; hide Accepts; hide Infer;
      InferAcceptsShape(samples, q);
    }
  }

  lemma SubmitFits(s: State, id: string, c: Cluster, result: Classification, ids: seq<string>, own: Option<Cluster>,
                   post: Post, k: Key, threshold: int)
    requires id in s.jobs && s.jobs[id].source == Gathered(k) && k in s.clusters
      && |s.clusters[k].eventIds| >= threshold
    requires c == s.clusters[k] && c.hint == k.hint && ResultFits(result, k)
    requires forall i | 0 <= i < |s.proposals| :: ProposalFits(s.proposals[i])
    requires s.jobs[id].status.Running?
    ensures var (s', pc') := Submit(s, id, c, result, ids, own, post);
      && JobFits(s', threshold, s'.jobs[id], pc')
      && forall i | 0 <= i < |s'.proposals| :: ProposalFits(s'.proposals[i])
  {
    hide AcceptsShape;
  }

  // The step of a job of a gathered cluster keeps what it relies on.
  lemma OwnStepFits(s: State, events: seq<Envelope>, threshold: int, id: string, pc: Pc, a: Answer)
    requires ClustersHold(s, events) && id in s.jobs && JobFits(s, threshold, s.jobs[id], pc)
    requires forall i | 0 <= i < |s.proposals| :: ProposalFits(s.proposals[i])
    ensures var (s', pc') := JobStep(s, id, pc, a);
      && JobFits(s', threshold, s'.jobs[id], pc')
      && forall i | 0 <= i < |s'.proposals| :: ProposalFits(s'.proposals[i])
  {
    var source := s.jobs[id].source;
    if source.Gathered? {
      SamplesFit(s, events, source.key);
      hide ClustersHold;
      GatheredStepFits(s, threshold, id, source.key, pc, a);
    } else {
      hide ClustersHold;
      OtherStepFits(s, threshold, id, pc, a);
    }
  }

  lemma GatheredStepFits(s: State, threshold: int, id: string, k: Key, pc: Pc, a: Answer)
    requires id in s.jobs && s.jobs[id].source == Gathered(k) && JobFits(s, threshold, s.jobs[id], pc)
    requires k in s.clusters ==>
      s.clusters[k].hint == k.hint && SamplesOf(s.clusters[k]) != [] && AllOfShape(SamplesOf(s.clusters[k]), k)
    requires forall i | 0 <= i < |s.proposals| :: ProposalFits(s.proposals[i])
    ensures var (s', pc') := JobStep(s, id, pc, a);
      && JobFits(s', threshold, s'.jobs[id], pc')
      && forall i | 0 <= i < |s'.proposals| :: ProposalFits(s'.proposals[i])
  {
    hide ClassifyHeuristically; hide SamplesOf; hide AllOfShape; hide ProposalFits; hide ResultFits; hide FirstFive;
    match pc
    case Classifying(_, _, hint, samples) =>
      HeuristicFits(samples, hint, k);
      if a.reply.Some? { LlmFits(a.reply.value, k); }
    case Submitting(own, result) =>
      hide Submit;
      SubmitFits(s, id, s.clusters[k], result, FirstFive(s.clusters[k].eventIds), own, a.post, k, threshold);
    case Retrying(own, result) =>
      hide Submit;
      SubmitFits(s, id, s.clusters[k], result, [], own, a.post, k, threshold);
    case _ =>
  }

  lemma LlmFits(result: Classification, k: Key)
    ensures ResultFits(result.(heuristic := false), k)
  {
  }

  lemma OtherStepFits(s: State, threshold: int, id: string, pc: Pc, a: Answer)
    requires id in s.jobs && !s.jobs[id].source.Gathered? && JobFits(s, threshold, s.jobs[id], pc)
    requires forall i | 0 <= i < |s.proposals| :: ProposalFits(s.proposals[i])
    ensures var (s', pc') := JobStep(s, id, pc, a);
      && JobFits(s', threshold, s'.jobs[id], pc')
      && forall i | 0 <= i < |s'.proposals| :: ProposalFits(s'.proposals[i])
  {
    hide ClassifyHeuristically; hide SamplesOf; hide PayloadOf; hide PcFits; hide ProposalCategory; hide FirstFive;
  }

  // --- Runs ---

  lemma AddEventGrows(s: State, threshold: int, e: Envelope, jobId: string)
    ensures ClustersGrow(s, AddEvent(s, threshold, e, jobId))
  {
    hide ShapeKey; hide PayloadOf;
  }

  lemma AddEventJobs(s: State, threshold: int, e: Envelope, jobId: string)
    ensures var s' := AddEvent(s, threshold, e, jobId);
      && s'.proposals == s.proposals
      && (s'.jobs == s.jobs
          || (jobId in s'.jobs && s'.jobs == s.jobs[jobId := s'.jobs[jobId]]
              && JobFits(s', threshold, s'.jobs[jobId], Scheduled)))
  {
    hide ShapeKey; hide PayloadOf; hide KeyFor;
  }

  lemma NextOfEvent(st: Sys, threshold: int, e: Envelope, jobId: string)
    requires jobId !in st.s.jobs
    ensures var s' := AddEvent(st.s, threshold, e, jobId);
      Next(st, threshold, Event(e, jobId))
        == Sys(s', if jobId in s'.jobs then st.running[jobId := Scheduled] else st.running, st.events + [e])
  {
    hide AddEvent;
  }

  lemma EventSound(st: Sys, threshold: int, e: Envelope, jobId: string)
    requires Sound(st, threshold)
    ensures Sound(Next(st, threshold, Event(e, jobId)), threshold)
  {
    if jobId !in st.s.jobs {
      var s' := AddEvent(st.s, threshold, e, jobId);
      var running' := if jobId in s'.jobs then st.running[jobId := Scheduled] else st.running;
      NextOfEvent(st, threshold, e, jobId);
      hide ClustersHold; hide ClustersGrow; hide AddEvent; hide JobFits; hide ProposalFits; hide Next;
      AddEventHolds(st.s, st.events, threshold, e, jobId);
      AddEventGrows(st.s, threshold, e, jobId);
      AddEventJobs(st.s, threshold, e, jobId);
      JobsStillFit(st, s', running', threshold, jobId);
    }
  }

  // The jobs fit the grown clusters, and so does the one that may have been added.
  lemma JobsStillFit(st: Sys, s': State, running': map<string, Pc>, threshold: int, jobId: string)
    requires st.s.jobs.Keys == st.running.Keys && jobId !in st.s.jobs && ClustersGrow(st.s, s')
    requires forall id | id in st.s.jobs :: JobFits(st.s, threshold, st.s.jobs[id], st.running[id])
    requires s'.jobs == st.s.jobs
      || (jobId in s'.jobs && s'.jobs == st.s.jobs[jobId := s'.jobs[jobId]]
          && JobFits(s', threshold, s'.jobs[jobId], Scheduled))
    requires running' == if jobId in s'.jobs then st.running[jobId := Scheduled] else st.running
    ensures s'.jobs.Keys == running'.Keys
    ensures forall id | id in s'.jobs :: JobFits(s', threshold, s'.jobs[id], running'[id])
  {
    hide ClustersGrow; hide JobFits;
    forall id | id in s'.jobs ensures JobFits(s', threshold, s'.jobs[id], running'[id]) {
      if id in st.s.jobs { JobFitsStill(st.s, s', threshold, st.s.jobs[id], st.running[id]); }
    }
  }

  lemma AdvanceSound(st: Sys, threshold: int, jobId: string, a: Answer)
    requires Sound(st, threshold) && jobId in st.s.jobs
    ensures Sound(Next(st, threshold, Advance(jobId, a)), threshold)
    ensures ClustersGrow(st.s, Next(st, threshold, Advance(jobId, a)).s)
  {
    var pc := st.running[jobId];
    var (s', pc') := JobStep(st.s, jobId, pc, a);
    JobStepTouches(st.s, jobId, pc, a);
    OwnStepFits(st.s, st.events, threshold, jobId, pc, a);
    MarkHolds(st.s, st.events, st.s.jobs[jobId].source);
    assert ClustersGrow(st.s, s') by { hide ClustersHold; hide JobStep; }
    assert ClustersHold(s', st.events) by { hide JobStep; hide Holds; hide MarkSubmitted; }
    hide JobStep; hide ClustersHold; hide ClustersGrow; hide JobFits; hide ProposalFits; hide MarkSubmitted;
    forall id | id in s'.jobs && id != jobId ensures JobFits(s', threshold, s'.jobs[id], st.running[id]) {
      JobFitsStill(st.s, s', threshold, st.s.jobs[id], st.running[id]);
    }
  }

  lemma NextSound(st: Sys, threshold: int, a: Action)
    requires Sound(st, threshold)
    ensures Sound(Next(st, threshold, a), threshold) && ClustersGrow(st.s, Next(st, threshold, a).s)
  {
    match a
    case Event(e, jobId) =>
      EventSound(st, threshold, e, jobId);
      AddEventGrows(st.s, threshold, e, jobId);
      hide AddEvent; hide Sound;
    case Manual(eventIds, jobId) => ManualSound(st, threshold, eventIds, jobId);
    case Advance(jobId, answer) =>
      if jobId in st.s.jobs { AdvanceSound(st, threshold, jobId, answer); }
      hide JobStep; hide Sound;
  }

  lemma ManualSound(st: Sys, threshold: int, eventIds: seq<string>, jobId: string)
    requires Sound(st, threshold)
    ensures Sound(Next(st, threshold, Manual(eventIds, jobId)), threshold)
    ensures ClustersGrow(st.s, Next(st, threshold, Manual(eventIds, jobId)).s)
  {
    var s' := Next(st, threshold, Manual(eventIds, jobId)).s;
    assert ClustersGrow(st.s, s');
    assert ClustersHold(s', st.events) by { assert s'.clusters == st.s.clusters; hide Holds; }
    hide ClustersHold; hide ClustersGrow; hide PcFits; hide ProposalFits;
    forall id | id in st.s.jobs ensures JobFits(s', threshold, st.s.jobs[id], st.running[id]) {
      JobFitsStill(st.s, s', threshold, st.s.jobs[id], st.running[id]);
    }
  }

  // Main result: in every interleaving of events and jobs, clusters are duplicate-free, keep the
  // first five payloads and hold one shape only; proposals for a cluster carry its category, and
  // a heuristic one accepts every payload of the cluster's shape.
  lemma {:induction false} EveryRunSound(threshold: int, actions: seq<Action>)
    ensures Sound(Run(threshold, actions), threshold)
  {
    if actions != [] {
      EveryRunSound(threshold, actions[..|actions| - 1]);
      NextSound(Run(threshold, actions[..|actions| - 1]), threshold, actions[|actions| - 1]);
    }
  }

  // The submission of a cluster is never forgotten.
  lemma {:induction false} SubmissionStays(threshold: int, actions: seq<Action>, n: nat, k: Key)
    requires n <= |actions| && k in Run(threshold, actions[..n]).s.clusters
      && Run(threshold, actions[..n]).s.clusters[k].submitted
    ensures var s := Run(threshold, actions).s; k in s.clusters && s.clusters[k].submitted
  {
    if n == |actions| {
      assert actions[..n] == actions;
    } else {
      var init := actions[..|actions| - 1];
      assert init[..n] == actions[..n];
      SubmissionStays(threshold, init, n, k);
      EveryRunSound(threshold, init);
      NextSound(Run(threshold, init), threshold, actions[|actions| - 1]);
      hide Next; hide Sound;
    }
  }

  // --- When jobs are started ---

  predicate StartsJob(st: Sys, threshold: int, e: Envelope, jobId: string) {
    jobId !in st.s.jobs && jobId in Next(st, threshold, Event(e, jobId)).s.jobs
  }

  predicate IsSubmitted(s: State, k: Key) {
    k in s.clusters && s.clusters[k].submitted
  }

  lemma {:induction false} SizeOfIds(ids: seq<string>, all: set<string>)
    requires NoDuplicates(ids) && forall id :: id in ids <==> id in all
    ensures |ids| == |all|
  {
    if ids == [] {
      assert all == {};
    } else {
      var last := ids[|ids| - 1];
      var init := ids[..|ids| - 1];
      assert ids == init + [last];
      SizeOfIds(init, all - {last});
    }
  }

  // Main result: an event starts a job exactly when, with it, as many different events as the
  // threshold have reached its cluster and no submission is recorded; the job gets the cluster
  // and its first five event ids.
  lemma EventStartsJob(threshold: int, actions: seq<Action>, e: Envelope, jobId: string)
    requires jobId !in Run(threshold, actions).s.jobs
    ensures var st := Run(threshold, actions);
      var k := KeyFor(e);
      && (StartsJob(st, threshold, e, jobId) <==> |IdsAt(st.events + [e], k)| >= threshold && !IsSubmitted(st.s, k))
      && (StartsJob(st, threshold, e, jobId) ==>
            var s' := Next(st, threshold, Event(e, jobId)).s;
            && s'.jobs[jobId].source == Gathered(k) && s'.jobs[jobId].status.Pending?
            && s'.jobs[jobId].eventIds == FirstFive(s'.clusters[k].eventIds))
  {
    var st := Run(threshold, actions);
    var k := KeyFor(e);
    EveryRunSound(threshold, actions);
    hide Run;
    var c := Absorb(ClusterFor(st.s, e), e);
    AbsorbHolds(st.s, st.events, e);
    SizeOfIds(c.eventIds, IdsAt(st.events + [e], k));
    hide Sound; hide KeyFor; hide PayloadOf; hide IdsAt; hide Holds; hide Absorb;
  }

  // The jobs started by events of a cluster.
  function JobsOf(s: State, k: Key): set<string> {
    set id | id in s.jobs && s.jobs[id].source == Gathered(k)
  }

  // Main result: once a submission is recorded, no event starts another job for the cluster.
  lemma {:induction false} NoJobAfterSubmission(threshold: int, actions: seq<Action>, n: nat, k: Key)
    requires n <= |actions| && IsSubmitted(Run(threshold, actions[..n]).s, k)
    ensures JobsOf(Run(threshold, actions).s, k) <= JobsOf(Run(threshold, actions[..n]).s, k)
  {
    if n == |actions| {
      assert actions[..n] == actions;
    } else {
      var init := actions[..|actions| - 1];
      assert init[..n] == actions[..n];
      NoJobAfterSubmission(threshold, init, n, k);
      SubmissionStays(threshold, init, n, k);
      NextJobs(Run(threshold, init), threshold, actions[|actions| - 1], k);
    }
  }

  lemma NextJobs(st: Sys, threshold: int, a: Action, k: Key)
    requires IsSubmitted(st.s, k)
    ensures JobsOf(Next(st, threshold, a).s, k) <= JobsOf(st.s, k)
  {
    match a
    case Event(e, jobId) => hide KeyFor; hide PayloadOf;
    case Manual(_, _) =>
    case Advance(jobId, answer) =>
      if jobId in st.s.jobs && jobId in st.running {
        JobStepTouches(st.s, jobId, st.running[jobId], answer);
        hide JobStep; hide MarkSubmitted;
      }
  }

  // Main result: after a failed job, the next event of a cluster that is still unsubmitted starts
  // another one, even if the event has been seen before.
  lemma FailedJobIsRetried(threshold: int, actions: seq<Action>, failed: string, e: Envelope, jobId: string)
    requires var s := Run(threshold, actions).s;
      && failed in s.jobs && s.jobs[failed].status.JobFailed? && s.jobs[failed].source == Gathered(KeyFor(e))
      && !IsSubmitted(s, KeyFor(e)) && jobId !in s.jobs
    ensures StartsJob(Run(threshold, actions), threshold, e, jobId)
  {
    var st := Run(threshold, actions);
    EveryRunSound(threshold, actions);
    hide Run;
    assert JobFits(st.s, threshold, st.s.jobs[failed], st.running[failed]);
    hide Sound; hide KeyFor; hide PayloadOf;
  }

  // A submission is recorded only by a job that completed.
  ghost predicate SubmittedBy(s: State, k: Key) {
    exists id | id in s.jobs :: s.jobs[id].source == Gathered(k) && s.jobs[id].status.Completed?
  }

  lemma {:induction false} SubmittedIffCompleted(threshold: int, actions: seq<Action>, k: Key)
    ensures IsSubmitted(Run(threshold, actions).s, k) <==> SubmittedBy(Run(threshold, actions).s, k)
  {
    EveryRunSound(threshold, actions);
    var s := Run(threshold, actions).s;
    if SubmittedBy(s, k) {
      var id :| id in s.jobs && s.jobs[id].source == Gathered(k) && s.jobs[id].status.Completed?;
      assert JobFits(s, threshold, s.jobs[id], Run(threshold, actions).running[id]);
    }
    if IsSubmitted(s, k) && actions != [] {
      var init := actions[..|actions| - 1];
      SubmittedIffCompleted(threshold, init, k);
      EveryRunSound(threshold, init);
      NextSubmitted(Run(threshold, init), threshold, actions[|actions| - 1], k);
    }
  }

  lemma NextSubmitted(st: Sys, threshold: int, a: Action, k: Key)
    requires Sound(st, threshold) && IsSubmitted(Next(st, threshold, a).s, k)
    requires IsSubmitted(st.s, k) ==> SubmittedBy(st.s, k)
    ensures SubmittedBy(Next(st, threshold, a).s, k)
  {
    var s' := Next(st, threshold, a).s;
    match a
    case Event(e, jobId) =>
      hide Sound; hide KeyFor; hide PayloadOf;
      var id :| id in st.s.jobs && st.s.jobs[id].source == Gathered(k) && st.s.jobs[id].status.Completed?;
      assert jobId !in st.s.jobs ==> s'.jobs[id] == st.s.jobs[id];
    case Manual(_, jobId) =>
      hide Sound;
      var id :| id in st.s.jobs && st.s.jobs[id].source == Gathered(k) && st.s.jobs[id].status.Completed?;
      assert s'.jobs[id] == st.s.jobs[id];
    case Advance(jobId, answer) =>
      if jobId in st.s.jobs {
        CompletedStays(st, threshold, jobId, answer, k);
      }
  }

  lemma CompletedStays(st: Sys, threshold: int, jobId: string, a: Answer, k: Key)
    requires Sound(st, threshold) && jobId in st.s.jobs && IsSubmitted(Next(st, threshold, Advance(jobId, a)).s, k)
    requires IsSubmitted(st.s, k) ==> SubmittedBy(st.s, k)
    ensures SubmittedBy(Next(st, threshold, Advance(jobId, a)).s, k)
  {
    var pc := st.running[jobId];
    var s' := JobStep(st.s, jobId, pc, a).0;
    JobStepTouches(st.s, jobId, pc, a);
    OverStays(st.s, jobId, a);
    assert JobFits(st.s, threshold, st.s.jobs[jobId], pc);
    assert Next(st, threshold, Advance(jobId, a)).s == s';
    hide Next; hide Sound; hide PcFits; hide JobStep;
    if IsSubmitted(st.s, k) {
      var id :| id in st.s.jobs && st.s.jobs[id].source == Gathered(k) && st.s.jobs[id].status.Completed?;
      hide MarkSubmitted;
      assert s'.jobs[id] == st.s.jobs[id];
    } else {
      assert s'.jobs[jobId].source == Gathered(k);
    }
  }

  lemma OverStays(s: State, id: string, a: Answer)
    requires id in s.jobs
    ensures JobStep(s, id, Over, a) == (s, Over)
  {
  }
}
