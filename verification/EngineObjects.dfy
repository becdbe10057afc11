/**
 The engine as it is written: cluster and job objects that are updated in place. Each method is
 proved to do what the functions of ClusterEngine do to the values the objects stand for; a job
 runs here without anything in between.
 */
module EngineObjects {
  import opened Prelude
  import opened Json
  import opened SchemaInference
  import opened Envelopes
  import opened RegistryTables
  import V = ClusterEngine

  class Cluster {
    const key: V.Key
    const hint: string
    const representative: Payload
    var eventIds: seq<string>
    var samples: seq<Payload>
    var submitted: bool

    ghost function Value(): V.Cluster
      reads this
    {
      V.Cluster(hint, eventIds, representative, samples, submitted)
    }

    constructor (key: V.Key, hint: string, eventIds: seq<string>, representative: Payload, samples: seq<Payload>)
      ensures this.key == key && Value() == V.Cluster(hint, eventIds, representative, samples, false)
    {
      this.key, this.hint, this.representative := key, hint, representative;
      this.eventIds, this.samples, this.submitted := eventIds, samples, false;
    }

    method Add(e: Envelope)
      modifies this
      ensures Value() == V.Absorb(old(Value()), e)
    {
      if e.eventId != "" && e.eventId !in eventIds { eventIds := eventIds + [e.eventId]; }
      if |samples| < 5 { samples := samples + [V.PayloadOf(e)]; }
    }
  }

  class Job {
    const id: string
    const eventIds: seq<string>
    const cluster: Cluster?            // null for a manual job
    var status: V.Status
    var category: string
    var proposal: Option<nat>

    ghost function Value(): V.Job
      reads this
    {
      V.Job(eventIds, if cluster == null then V.ByHand else V.Gathered(cluster.key), status, category, proposal)
    }

    constructor (id: string, eventIds: seq<string>, cluster: Cluster?)
      ensures this.id == id && this.cluster == cluster && this.eventIds == eventIds
      ensures status == V.Pending && category == "" && proposal == None
    {
      this.id, this.eventIds, this.cluster := id, eventIds, cluster;
      status, category, proposal := V.Pending, "", None;
    }
  }

  class Engine {
    const threshold: int
    var clusters: map<V.Key, Cluster>
    var jobs: map<string, Job>
    var proposals: seq<V.Proposal>     // at the registry

    ghost predicate Valid()
      reads this
    {
      && (forall k | k in clusters :: clusters[k].key == k)
      && (forall id | id in jobs :: jobs[id].id == id
            && (jobs[id].cluster != null
                ==> jobs[id].cluster.key in clusters && clusters[jobs[id].cluster.key] == jobs[id].cluster))
    }

    ghost function Clusters(): map<V.Key, V.Cluster>
      reads this`clusters, clusters.Values
    {
      map k | k in clusters :: clusters[k].Value()
    }

    ghost function Jobs(): map<string, V.Job>
      reads this`jobs, jobs.Values
    {
      map id | id in jobs :: jobs[id].Value()
    }

    ghost function State(): (s: V.State)
      reads this, clusters.Values, jobs.Values
      ensures s.jobs.Keys == jobs.Keys && s.proposals == proposals
    {
      V.State(Clusters(), Jobs(), proposals)
    }

    constructor (threshold: int)
      ensures Valid() && this.threshold == threshold && State() == V.State(map[], map[], [])
    {
      this.threshold := threshold;
      clusters, jobs, proposals := map[], map[], [];
    }

    method StartJob(eventIds: seq<string>, cluster: Cluster?, id: string) returns (job: Job)
      requires Valid() && id !in jobs
        && (cluster != null ==> cluster.key in clusters && clusters[cluster.key] == cluster)
      modifies this`jobs
      ensures Valid() && fresh(job) && jobs == old(jobs)[id := job]
      ensures State() == V.WithJob(old(State()), id,
        V.Job(eventIds, if cluster == null then V.ByHand else V.Gathered(cluster.key), V.Pending, "", None))
    {
      job := new Job(id, eventIds, cluster);
      ghost var before := Jobs();
      jobs := jobs[id := job];
      EqualMaps(Jobs(), before[id := job.Value()]);
    }

    // The cluster of an event, made if there is none.
    method FindCluster(e: Envelope) returns (c: Cluster)
      requires Valid()
      modifies this`clusters
      ensures Valid() && c.key == V.KeyFor(e) && clusters == old(clusters)[V.KeyFor(e) := c]
      ensures V.KeyFor(e) in old(clusters) ==> c == old(clusters)[V.KeyFor(e)]
      ensures V.KeyFor(e) !in old(clusters) ==> fresh(c)
      ensures c.Value() == V.ClusterFor(old(State()), e)
    {
      var key := V.KeyFor(e);
      hide V.KeyFor;
      if key in clusters {
        c := clusters[key];
      } else {
        c := new Cluster(key, e.category, [], V.PayloadOf(e), []);
        clusters := clusters[key := c];
      }
    }

    // The part of add_event under the lock.
    method Gather(e: Envelope) returns (c: Cluster)
      requires Valid()
      modifies this`clusters, clusters.Values
      ensures Valid() && c.key == V.KeyFor(e) && V.KeyFor(e) in clusters && clusters[V.KeyFor(e)] == c
      ensures c.Value() == V.Absorb(V.ClusterFor(old(State()), e), e)
      ensures State() == old(State()).(clusters := old(State()).clusters[V.KeyFor(e) := c.Value()])
    {
      hide V.KeyFor; hide V.Absorb; hide V.PayloadOf; hide V.ClusterFor;
      ghost var before, jobsBefore := Clusters(), Jobs();
      c := FindCluster(e);
      c.Add(e);
      EqualMaps(Clusters(), before[V.KeyFor(e) := c.Value()]);
      EqualMaps(Jobs(), jobsBefore);
    }

    method AddEvent(e: Envelope, jobId: string)
      requires Valid() && jobId !in jobs
      modifies this, clusters.Values
      ensures Valid() && State() == V.AddEvent(old(State()), threshold, e, jobId)
    {
      hide V.KeyFor; hide V.Absorb; hide V.PayloadOf; hide V.ClusterFor; hide State; hide Clusters; hide Jobs;
      var c := Gather(e);
      if |c.eventIds| >= threshold && !c.submitted {
        var job := StartJob(V.FirstFive(c.eventIds), c, jobId);
      }
    }

    method SetStatus(id: string, status: V.Status)
      requires Valid() && id in jobs
      modifies jobs[id]
      ensures Valid() && Clusters() == old(Clusters())
      ensures Jobs() == old(Jobs())[id := old(jobs[id].Value()).(status := status)]
    {
      ghost var before := Jobs();
      jobs[id].status := status;
      EqualMaps(Jobs(), before[id := jobs[id].Value()]);
    }

    method Fail(id: string)
      requires Valid() && id in jobs
      modifies jobs[id]
      ensures Valid() && (State(), V.Over) == V.Fail(old(State()), id)
    {
      SetStatus(id, V.JobFailed);
    }

    method Record(id: string, category: string, proposal: nat)
      requires Valid() && id in jobs
      modifies jobs[id]
      ensures Valid() && Clusters() == old(Clusters())
      ensures Jobs() == old(Jobs())[id := old(jobs[id].Value()).(status := V.Completed, category := category,
        proposal := Some(proposal))]
    {
      ghost var before := Jobs();
      var job := jobs[id];
      job.status, job.category, job.proposal := V.Completed, category, Some(proposal);
      EqualMaps(Jobs(), before[id := job.Value()]);
    }

    method Mark(c: Cluster)
      requires Valid() && c.key in clusters && clusters[c.key] == c
      modifies c
      ensures Valid() && State() == V.MarkSubmitted(old(State()), V.Gathered(c.key))
    {
      ghost var before, jobsBefore := Clusters(), Jobs();
      c.submitted := true;
      EqualMaps(Clusters(), before[c.key := c.Value()]);
      EqualMaps(Jobs(), jobsBefore);
    }

    // The job is completed, and its cluster, if it has one, is marked.
    method Complete(id: string, result: V.Classification, proposal: nat)
      requires Valid() && id in jobs
      modifies jobs[id], clusters.Values
      ensures Valid() && (State(), V.Over) == V.Complete(old(State()), id, result, proposal)
    {
      ghost var before := State();
      if jobs[id].cluster != null { Mark(jobs[id].cluster); }
      assert State() == V.MarkSubmitted(before, before.jobs[id].source);
      hide Clusters; hide Jobs; hide V.MarkSubmitted;
      Record(id, result.category, proposal);
    }

    // The registry stores the proposal.
    method Arrive(id: string, c: Cluster, result: V.Classification, sampleIds: seq<string>)
      requires Valid() && id in jobs && (jobs[id].cluster != null ==> c == jobs[id].cluster)
      modifies this`proposals
      ensures Valid() && State() == V.Receive(old(State()), id, c.Value(), result, sampleIds)
    {
      var category := if c.hint != "" then c.hint else result.category;
      var source := if jobs[id].cluster == null then V.ByHand else V.Gathered(c.key);
      assert State().jobs[id] == jobs[id].Value();
      proposals := proposals + [V.Proposal(category, result.document, result.routing, sampleIds, result.heuristic,
        source)];
    }

    // One attempt to submit; `again` says that it may be repeated without the sample ids.
    method Submit(id: string, c: Cluster, result: V.Classification, sampleIds: seq<string>, post: V.Post,
                  ghost own: Option<V.Cluster>)
        returns (again: bool)
      requires Valid() && id in jobs && (jobs[id].cluster != null ==> c == jobs[id].cluster)
      modifies this`proposals, jobs[id], clusters.Values
      ensures Valid()
      ensures (State(), if again then V.Retrying(own, result) else V.Over)
              == V.Submit(old(State()), id, old(c.Value()), result, sampleIds, own, post)
      ensures again ==> State() == old(State()) && c.Value() == old(c.Value())
    {
      hide State; hide Clusters; hide Jobs; hide V.Receive; hide V.Complete; hide V.Fail;
      again := false;
      match post
      case Accepted =>
        var number := |proposals|;
        Arrive(id, c, result, sampleIds);
        Complete(id, result, number);
      case Declined =>
        if sampleIds != [] { again := true; } else { Fail(id); }
      case Broken(arrived) =>
        if arrived { Arrive(id, c, result, sampleIds); }
        Fail(id);
    }

    // Posts the proposal, and once more without the sample ids if the registry declines it.
    method SubmitProposal(id: string, c: Cluster, result: V.Classification, net: nat -> V.Answer, i: nat,
                          ghost own: Option<V.Cluster>)
      requires Valid() && id in jobs && (jobs[id].cluster != null ==> c == jobs[id].cluster)
      requires V.ClusterOf(State(), State().jobs[id].source, own) == Some(c.Value())
      modifies this`proposals, jobs[id], clusters.Values
      ensures Valid() && State() == V.RunJob(old(State()), id, V.Submitting(own, result), net, i)
    {
      V.SubmittingRuns(State(), id, c.Value(), own, result, net, i);
      hide State; hide Clusters; hide Jobs; hide V.RunJob; hide V.ClusterOf; hide V.FirstFive; hide V.Submit;
      var again := Submit(id, c, result, V.FirstFive(c.eventIds), net(i).post, own);
      if again {
        again := Submit(id, c, result, [], net(i + 1).post, own);
      }
    }

    method Classify(backend: V.Backend, hint: string, samples: seq<Payload>, reply: Option<V.Classification>)
        returns (r: Option<V.Classification>)
      ensures r == V.Classified(backend, hint, samples, reply)
    {
      if backend.Heuristic? {
        var document := InferSchema(samples);
        return Some(V.Classification(if hint != "" then hint else "unknown_shape",
                                     document, Routing("postgres", []), true));
      }
      if reply.None? { return None; }
      return Some(reply.value.(heuristic := false));
    }

    // _cluster_from_store, on the rows it found.
    method ClusterFromRows(rows: seq<Envelope>, eventIds: seq<string>) returns (c: Cluster)
      requires rows != []
      ensures fresh(c) && c.Value() == V.FromRows(rows, eventIds)
    {
      hide V.PayloadOf;
      var payloads := seq(|rows|, i requires 0 <= i < |rows| => V.PayloadOf(rows[i]));
      c := new Cluster(V.Key("", []), rows[0].category, eventIds, payloads[0], V.FirstFive(payloads));
    }

    // The rest of a job once it has its cluster.
    method ProposeFor(id: string, c: Cluster, backend: V.Backend, net: nat -> V.Answer, i: nat,
                      ghost own: Option<V.Cluster>)
      requires Valid() && id in jobs && (jobs[id].cluster != null ==> c == jobs[id].cluster)
      requires V.ClusterOf(State(), State().jobs[id].source, own) == Some(c.Value())
      modifies this`proposals, jobs[id], clusters.Values
      ensures Valid()
      ensures State() == V.RunJob(old(State()), id,
        V.Classifying(backend, own, old(c.Value()).hint, V.SamplesOf(old(c.Value()))), net, i)
    {
      hide State; hide Clusters; hide Jobs; hide V.RunJob; hide V.Classified; hide V.Fail; hide V.ClusterOf;
      var samples := if c.samples != [] then c.samples else [c.representative];
      V.ClassifyingRuns(State(), id, backend, own, c.hint, samples, net, i);
      var result := Classify(backend, c.hint, samples, net(i).reply);
      if result.None? {
        Fail(id);
      } else {
        SubmitProposal(id, c, result.value, net, i + 1, own);
      }
    }

    // The job is running; `c` is the cluster it was started for, if any.
    method Begin(id: string) returns (c: Cluster?, eventIds: seq<string>)
      requires Valid() && id in jobs
      modifies jobs[id]
      ensures Valid() && c == jobs[id].cluster && eventIds == old(State()).jobs[id].eventIds
      ensures State() == V.WithJob(old(State()), id, old(State()).jobs[id].(status := V.Running))
      ensures c == null ==> State().jobs[id].source == V.ByHand
      ensures c != null ==> V.ClusterOf(State(), State().jobs[id].source, None) == Some(c.Value())
    {
      c, eventIds := jobs[id].cluster, jobs[id].eventIds;
      SetStatus(id, V.Running);
    }

    method RunJob(id: string, net: nat -> V.Answer)
      requires Valid() && id in jobs
      modifies this`proposals, jobs[id], clusters.Values
      ensures Valid() && State() == V.RunJob(old(State()), id, V.Scheduled, net, 0)
    {
      hide State; hide Clusters; hide Jobs; hide V.RunJob; hide V.SamplesOf; hide V.FromRows; hide V.Fail;
      V.ScheduledRuns(State(), id, net);
      var c, eventIds := Begin(id);
      if c != null {
        ProposeFor(id, c, net(0).backend, net, 1, None);
      } else {
        var rows := net(1).rows;
        if rows.None? || rows.value == [] {
          Fail(id);
        } else {
          var made := ClusterFromRows(rows.value, eventIds);
          ProposeFor(id, made, net(1).backend, net, 2, Some(made.Value()));
        }
      }
    }
  }
}
