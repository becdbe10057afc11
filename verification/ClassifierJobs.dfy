/**
 What a classification job does from start to end (classifier/app/engine.py:96-169 and
 classifier/app/backends.py:59-82), by how its calls end: what it asks the backend, what it posts,
 and what becomes of the job and its cluster.
 */
module ClassifierJobs {
  import opened Prelude
  import opened Json
  import opened SchemaInference
  import opened Envelopes
  import opened RegistryTables
  import opened ClusterEngine

  // The backend's answer: the heuristic infers the schema of the samples and routes to postgres,
  // a language model replies or fails.
  function AnswerOf(backend: Backend, hint: string, samples: seq<Payload>, reply: Option<Classification>)
    : Option<Classification>
  {
    match backend
    case Heuristic =>
      Some(Classification(if hint == "" then "unknown_shape" else hint, Infer(samples), Routing("postgres", []), true))
    case Llm =>
      (match reply
       case None => None
       case Some(x) => Some(Classification(x.category, x.document, x.routing, false)))
  }

  // What is posted: the cluster's category if it has one, otherwise the answer's.
  function Posted(c: Cluster, x: Classification, ids: seq<string>, source: Source): Proposal {
    Proposal(if c.hint == "" then x.category else c.hint, x.document, x.routing, ids, x.heuristic, source)
  }

  // The job has failed, and nothing else has changed, except that a proposal may have arrived.
  ghost predicate FailedWith(s: State, r: State, id: string, arrived: seq<Proposal>)
    requires id in s.jobs
  {
    && r.clusters == s.clusters && r.proposals == s.proposals + arrived
    && r.jobs == s.jobs[id := s.jobs[id].(status := JobFailed)]
  }

  // The proposal has arrived, the job names it, and a gathered cluster is marked.
  ghost predicate CompletedWith(s: State, r: State, id: string, x: Classification, p: Proposal)
    requires id in s.jobs
  {
    && r.proposals == s.proposals + [p]
    && r.jobs == s.jobs[id := s.jobs[id].(status := Completed, category := x.category, proposal := Some(|s.proposals|))]
    && r.clusters.Keys == s.clusters.Keys
    && forall k | k in s.clusters :: r.clusters[k] ==
         if s.jobs[id].source == Gathered(k) then s.clusters[k].(submitted := true) else s.clusters[k]
  }

  // One post of these sample ids, and whatever else.
  ghost predicate PostEnds(s: State, r: State, id: string, x: Classification, p: Proposal, post: Post, last: bool)
    requires id in s.jobs
  {
    match post
    case Accepted => CompletedWith(s, r, id, x, p)
    case Broken(arrived) => FailedWith(s, r, id, if arrived then [p] else [])
    case Declined => last ==> FailedWith(s, r, id, [])
  }

  // How a job ends: without an answer it fails. Otherwise it posts the answer with the first five
  // event ids of the cluster; if that is declined, it posts once more, without ids.
  ghost predicate JobEnds(s: State, r: State, id: string, c: Cluster, answer: Option<Classification>, first: Post,
                          second: Post)
    requires id in s.jobs
  {
    match answer
    case None => FailedWith(s, r, id, [])
    case Some(x) =>
      var ids := if |c.eventIds| <= 5 then c.eventIds else c.eventIds[..5];
      && PostEnds(s, r, id, x, Posted(c, x, ids, s.jobs[id].source), first, ids == [])
      && (first.Declined? && ids != [] ==> PostEnds(s, r, id, x, Posted(c, x, [], s.jobs[id].source), second, true))
  }

  lemma ClassifiedIs(backend: Backend, hint: string, samples: seq<Payload>, reply: Option<Classification>)
    ensures Classified(backend, hint, samples, reply) == AnswerOf(backend, hint, samples, reply)
  {
  }

  lemma SubmitEnds(s: State, id: string, c: Cluster, x: Classification, ids: seq<string>, own: Option<Cluster>,
                   post: Post)
    requires id in s.jobs
    ensures var (r, pc) := Submit(s, id, c, x, ids, own, post);
      && PostEnds(s, r, id, x, Posted(c, x, ids, s.jobs[id].source), post, ids == [])
      && (post.Declined? && ids != [] ==> r == s && pc == Retrying(own, x))
      && (!(post.Declined? && ids != []) ==> pc.Over?)
  {
    hide Infer;
    assert s.proposals + [] == s.proposals;
  }

  // From the classification on.
  lemma ClassifyingEnds(s: State, id: string, c: Cluster, backend: Backend, own: Option<Cluster>, hint: string,
                        samples: seq<Payload>, net: nat -> Answer, i: nat)
    requires id in s.jobs && ClusterOf(s, s.jobs[id].source, own) == Some(c)
    ensures JobEnds(s, RunJob(s, id, Classifying(backend, own, hint, samples), net, i), id, c,
                    AnswerOf(backend, hint, samples, net(i).reply), net(i + 1).post, net(i + 2).post)
  {
    ClassifyingRuns(s, id, backend, own, hint, samples, net, i);
    ClassifiedIs(backend, hint, samples, net(i).reply);
    hide RunJob; hide Classified; hide AnswerOf;
    match AnswerOf(backend, hint, samples, net(i).reply)
    case None => assert s.proposals + [] == s.proposals;
    case Some(x) =>
      SubmittingRuns(s, id, c, own, x, net, i + 1);
      SubmitEnds(s, id, c, x, FirstFive(c.eventIds), own, net(i + 1).post);
      SubmitEnds(s, id, c, x, [], own, net(i + 2).post);
      hide Submit; hide PostEnds; hide FirstFive;
      assert FirstFive(c.eventIds) == if |c.eventIds| <= 5 then c.eventIds else c.eventIds[..5];
  }

  // Main result: a job of a gathered cluster asks the backend about the cluster's samples under its
  // category, and ends as described.
  lemma GatheredJobEnds(s: State, id: string, k: Key, net: nat -> Answer)
    requires id in s.jobs && s.jobs[id].source == Gathered(k) && k in s.clusters
    ensures var c := s.clusters[k];
      var samples := if c.samples == [] then [c.representative] else c.samples;
      JobEnds(Started(s, id), RunJob(s, id, Scheduled, net, 0), id, c,
              AnswerOf(net(0).backend, c.hint, samples, net(1).reply), net(2).post, net(3).post)
  {
    var c := s.clusters[k];
    var job := s.jobs[id];
    var s1 := WithJob(s, id, job.(status := Running));
    assert s1 == Started(s, id) && ClusterOf(s, job.source, None) == Some(c) == ClusterOf(s1, s1.jobs[id].source, None);
    assert SamplesOf(c) == if c.samples == [] then [c.representative] else c.samples;
    hide *;
    ScheduledRuns(s, id, net);
    ClassifyingEnds(s1, id, c, net(0).backend, None, c.hint, SamplesOf(c), net, 1);
  }

  function Started(s: State, id: string): State
    requires id in s.jobs
  {
    s.(jobs := s.jobs[id := s.jobs[id].(status := Running)])
  }

  // The cluster that a job for given event ids makes of the rows it loads.
  ghost predicate MadeOf(c: Cluster, rows: seq<Envelope>, ids: seq<string>)
    requires rows != []
  {
    && c.hint == rows[0].category && c.eventIds == ids
    && |c.samples| == (if |rows| <= 5 then |rows| else 5)
    && (forall j | 0 <= j < |c.samples| ::
          c.samples[j] == if rows[j].payload.Some? then rows[j].payload.value else map[])
  }

  // Main result: a job for event ids given by hand fails if no rows can be loaded; otherwise it asks
  // about the first five payloads under the first row's category, and marks no cluster.
  lemma ManualJobEnds(s: State, id: string, net: nat -> Answer)
    requires id in s.jobs && s.jobs[id].source == ByHand
    ensures var r := RunJob(s, id, Scheduled, net, 0);
      if net(1).rows.None? || net(1).rows.value == [] then FailedWith(Started(s, id), r, id, [])
      else exists c ::
        && MadeOf(c, net(1).rows.value, s.jobs[id].eventIds)
        && JobEnds(Started(s, id), r, id, c, AnswerOf(net(1).backend, c.hint, c.samples, net(2).reply), net(3).post,
                   net(4).post)
  {
    var job := s.jobs[id];
    var s1 := WithJob(s, id, job.(status := Running));
    assert s1 == Started(s, id) && ClusterOf(s, job.source, None) == None;
    assert s1.jobs[id] == job.(status := Running);
    var loaded := net(1).rows;
    hide *;
    ScheduledRuns(s, id, net);
    if loaded.Some? && loaded.value != [] {
      var rows := loaded.value;
      var c := FromRows(rows, job.eventIds);
      MadeIs(rows, job.eventIds);
      OwnCluster(s1, id, c);
      ClassifyingEnds(s1, id, c, net(1).backend, Some(c), c.hint, SamplesOf(c), net, 2);
    } else {
      FailsAtOnce(s1, id);
    }
  }

  lemma MadeIs(rows: seq<Envelope>, ids: seq<string>)
    requires rows != []
    ensures var c := FromRows(rows, ids); MadeOf(c, rows, ids) && SamplesOf(c) == c.samples
  {
  }

  lemma OwnCluster(s: State, id: string, c: Cluster)
    requires id in s.jobs && s.jobs[id].source == ByHand
    ensures ClusterOf(s, s.jobs[id].source, Some(c)) == Some(c)
  {
  }

  lemma FailsAtOnce(s: State, id: string)
    requires id in s.jobs
    ensures FailedWith(s, ClusterEngine.Fail(s, id).0, id, [])
  {
    assert s.proposals + [] == s.proposals;
  }
}
