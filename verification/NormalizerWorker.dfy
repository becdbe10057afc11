/**
 The normalizer as it is written: methods that update the store, the cache, the streams and the
 counters in place. Each is proved to do what the step functions of Normalizer do when its task
 runs alone; `net(i)` answers its i-th external call.
 */
module NormalizerWorker {
  import opened Prelude
  import opened Envelopes
  import opened RegistryTables
  import opened RegistryClient
  import opened QuarantineTable
  import opened Normalizer

  // internal/normalizer/store.go
  class Store {
    var tables: Tables
    var rows: seq<QRow>

    constructor ()
      ensures tables == EMPTY && rows == []
    {
      tables, rows := EMPTY, [];
    }

    // Resolves the category and its active schema, then inserts. `done` says whether the row
    // is in the table, `ok` whether the caller gets no error.
    method InsertEvent(e: Envelope, net: nat -> Answer, i: nat) returns (done: bool, ok: bool, j: nat)
      modifies this`tables
      ensures match if net(i).outcome.Ok? then ResolveForInsert(old(tables), e.category) else None
        case None => j == i + 1 && !done && !ok && tables == old(tables)
        case Some((categoryId, schemaId)) =>
          && j == i + 2 && ok == (done && net(i + 1).outcome.Ok?)
          && match if net(i + 1).outcome.TookEffect()
             then RegistryTables.InsertEvent(old(tables), categoryId, schemaId, e) else None
             case None => !done && tables == old(tables)
             case Some(inserted) => done && tables == inserted
    {
      done, ok, j := false, false, i + 1;
      if !net(i).outcome.Ok? { return; }
      var active := ActiveSchema(tables, e.category);
      if active.None? { return; }
      var categoryId, schemaId := tables.categories[e.category], active.value.id;
      j := i + 2;
      if net(i + 1).outcome.TookEffect() && categoryId in tables.categories.Values && HasSchema(tables, schemaId) {
        tables := tables.(events := tables.events + [EventRow(categoryId, schemaId, e)]);
        done := true;
      }
      ok := done && net(i + 1).outcome.Ok?;
    }

    method Locate(id: string) returns (i: nat)
      ensures i == IndexOf(rows, id)
    {
      i := 0;
      while i < |rows| && rows[i].id != id
        invariant i <= |rows|
        invariant IndexOf(rows, id) == i + IndexOf(rows[i..], id)
      {
        assert rows[i..][1..] == rows[i + 1..];
        i := i + 1;
      }
    }

    method Quarantine(e: Envelope, reason: Reason)
      modifies this`rows
      ensures rows == Upsert(old(rows), e, reason)
    {
      var i := Locate(e.eventId);
      if i < |rows| {
        rows := rows[i := rows[i].(attempts := rows[i].attempts + 1, reason := reason)];
      } else {
        rows := rows + [QRow(e.eventId, Encode(e), reason, PendingReplay, 0)];
      }
    }

    method QuarantinedByCategory(category: string) returns (out: seq<QRow>)
      ensures out == PendingOf(rows, category)
    {
      out := [];
      for i := 0 to |rows|
        invariant out == PendingOf(rows[..i], category)
      {
        assert rows[..i + 1][..i] == rows[..i];
        if rows[i].status == PendingReplay && CategoryText(rows[i].raw) == Some(category) {
          out := out + [rows[i]];
        }
      }
      assert rows[..|rows|] == rows;
    }

    method MarkReplayed(id: string)
      modifies this`rows
      ensures rows == Mark(old(rows), id)
    {
      var i := Locate(id);
      if i < |rows| { rows := rows[i := rows[i].(status := Replayed)]; }
    }

    method BumpAttempts(id: string, reason: Reason)
      modifies this`rows
      ensures rows == Bump(old(rows), id, reason)
    {
      var i := Locate(id);
      if i < |rows| { rows := rows[i := rows[i].(attempts := rows[i].attempts + 1, reason := reason)]; }
    }
  }

  // internal/normalizer/worker.go
  class Worker {
    const store: Store
    const registry: Client
    const lokiSet: bool
    var processed: nat
    var routed: nat
    var failedValid: nat
    var quarantined: nat
    var replayed: nat
    var stream: seq<Envelope>
    var loki: seq<Envelope>
    var acked: set<nat>
    var approvalsAcked: set<nat>
    ghost var finished: seq<Call>
    ghost var upserts: seq<string>
    ghost var bumps: seq<string>
    ghost var unparseable: nat

    ghost function State(): Shared
      reads this, store, registry
    {
      Shared(store.tables, registry.cache, store.rows, stream, loki, lokiSet,
             Counters(processed, routed, failedValid, quarantined, replayed),
             acked, approvalsAcked, finished, upserts, bumps, unparseable)
    }

    constructor (lokiSet: bool)
      ensures fresh(store) && fresh(registry) && this.lokiSet == lokiSet
      ensures State() == Shared(EMPTY, map[], [], [], [], lokiSet, Counters(0, 0, 0, 0, 0), {}, {}, [], [], [], 0)
    {
      this.lokiSet := lokiSet;
      store := new Store();
      registry := new Client();
      processed, routed, failedValid, quarantined, replayed := 0, 0, 0, 0, 0;
      stream, loki, acked, approvalsAcked := [], [], {}, {};
      finished, upserts, bumps, unparseable := [], [], [], 0;
    }

    // Process: validate one envelope and route it, or quarantine it.
    method Process(e: Envelope, net: nat -> Answer, i: nat) returns (result: Pc, j: nat)
      modifies this, store, registry
      ensures (State(), Call(e, result), j) == RunCall(old(State()), Call(e, Start), net, i)
    {
      hide RunCall; hide Get; hide RegistryClient.Answer; hide Validate; hide Destinations; hide Proceed;
      RunFromStart(State(), e, net, i);
      processed := processed + 1;
      var lookup := registry.GetSchema(e.category, net(i).now,
        RegistryClient.Answer(store.tables, e.category, net(i).fault));
      match lookup
      case SchemaNotFound =>
        result, j := QuarantineEnvelope(e, UnknownCategory, net, i + 1);
      case LookupError =>
        result, j := Failed([], 0), i + 1;
        finished := finished + [Call(e, result)];
      case Found(schema) =>
        var verdict := Validate(schema.document, e.payload);
        if verdict.Unloadable? {
          result, j := Failed([], 0), i + 1;
          finished := finished + [Call(e, result)];
        } else if verdict.Invalid? {
          failedValid := failedValid + 1;
          result, j := QuarantineEnvelope(e, SchemaValidationFailed(schema.version), net, i + 1);
        } else {
          result, j := RouteAll(e, schema, net, i + 1);
        }
    }

    // The loop over destinations.
    method RouteAll(e: Envelope, schema: RegistrySchema, net: nat -> Answer, i: nat) returns (result: Pc, j: nat)
      modifies this, store, registry
      ensures (State(), Call(e, result), j) == RunFrom(old(State()), e, schema, 0, net, i)
    {
      ghost var start := RunFrom(State(), e, schema, 0, net, i);
      var dests := Destinations(schema.routing);
      j := i;
      for k := 0 to |dests|
        invariant RunFrom(State(), e, schema, k, net, j) == start
      {
        RouteRuns(State(), e, schema, k, net, j);
        hide RunFrom; hide RouteAlone; hide Destinations;
        var ok, done;
        ok, done, j := Route(e, dests, k, net, j);
        if !ok {
          result := Failed(dests, done);
          finished := finished + [Call(e, result)];
          return;
        }
      }
      routed := routed + 1;
      result := Routed(schema);
      finished := finished + [Call(e, result)];
    }

    // route: one destination; `done` counts the destinations that took effect if it fails.
    method Route(e: Envelope, dests: seq<string>, k: nat, net: nat -> Answer, i: nat)
      returns (ok: bool, done: nat, j: nat)
      requires k < |dests|
      modifies this, store
      ensures (State(), ok, done, j - i) == RouteAlone(old(State()), e, dests, k, net(i).outcome, net(i + 1).outcome)
      ensures j > i
    {
      hide ResolveForInsert; hide RegistryTables.InsertEvent;
      var dest := dests[k];
      ok, done, j := true, k + 1, i + 1;
      if dest == "loki" {
        if lokiSet {
          if net(i).outcome.TookEffect() { loki := loki + [e]; } else { done := k; }
          ok := net(i).outcome.Ok?;
        }
      } else if dest == "tempo" || dest == "mimir" {
      } else {
        var inserted;
        inserted, ok, j := store.InsertEvent(e, net, i);
        done := if inserted then k + 1 else k;
      }
    }

    method QuarantineEnvelope(e: Envelope, reason: Reason, net: nat -> Answer, i: nat) returns (result: Pc, j: nat)
      modifies this, store, registry
      ensures (State(), Call(e, result), j) == RunCall(old(State()), Call(e, Record(reason)), net, i)
    {
      QuarantineRuns(State(), e, reason, net, i);
      hide RunCall; hide Upsert;
      j := i + 1;
      result := Failed([], 0);
      if net(i).outcome.TookEffect() {
        store.Quarantine(e, reason);
        upserts := upserts + [e.eventId];
      }
      if net(i).outcome.Ok? {
        j := i + 2;
        if net(i + 1).outcome.TookEffect() { stream := stream + [e]; }
        if net(i + 1).outcome.Ok? {
          quarantined := quarantined + 1;
          result := Quarantined(reason);
        }
      }
      finished := finished + [Call(e, result)];
    }

    // ReplayOne: `ok` if the event now routes, `failed` on an error.
    method ReplayOne(row: QRow, net: nat -> Answer, i: nat) returns (ok: bool, failed: bool, j: nat)
      modifies this, store, registry
      ensures (State(), ok, failed, j) == ReplayOneAlone(old(State()), row, net, i)
    {
      hide RunCall; hide Mark; hide Bump; hide Decode;
      var decoded := Decode(row.raw);
      if decoded.None? {
        if net(i).outcome.TookEffect() {
          store.BumpAttempts(row.id, UnparseableStored);
          bumps := bumps + [row.id];
        }
        return false, !net(i).outcome.Ok?, i + 1;
      }
      RunCallReturns(State(), Call(decoded.value, Start), net, i);
      var result;
      result, j := Process(decoded.value, net, i);
      if result.Failed? { return false, true, j; }
      if result.Routed? {
        replayed := replayed + 1;
        if net(j).outcome.TookEffect() { store.MarkReplayed(row.id); }
        return true, !net(j).outcome.Ok?, j + 1;
      }
      return false, false, j;
    }

    // ReplayCategory: the number of rows replayed, and whether it got through without an error.
    method ReplayCategory(category: string, net: nat -> Answer, i: nat, ghost trigger: Trigger)
      returns (n: nat, ok: bool, j: nat)
      modifies this, store, registry
      ensures (State(), Reporting(n, ok), j) == RunReplay(old(State()), trigger, category, Querying, net, i)
    {
      ghost var start := RunReplay(State(), trigger, category, Querying, net, i);
      ReplayQueries(State(), trigger, category, net, i);
      hide ReplayOneAlone; hide RunReplay;
      if !net(i).outcome.Ok? { return 0, false, i + 1; }
      var events := store.QuarantinedByCategory(category);
      n, ok, j := 0, true, i + 1;
      for k := 0 to |events|
        invariant RunReplay(State(), trigger, category, NextRow(events[k..], n), net, j) == start
      {
        assert events[k..] == [events[k]] + events[k + 1..];
        ReplayOneRuns(State(), trigger, category, events[k], events[k + 1..], n, net, j);
        var one, failed;
        one, failed, j := ReplayOne(events[k], net, j);
        if failed { return n, false, j; }
        if one { n := n + 1; }
      }
      ReplayReports(State(), trigger, category, n, true, net, j);
    }

    // handleApproval; a message without a category is acknowledged and ignored.
    method HandleApproval(message: nat, category: string, net: nat -> Answer) returns (ok: bool)
      modifies this, store, registry
      ensures var (s, p, j) := RunReplay(old(State()), ByApproval(message), category,
        if category == "" then Ignoring else Invalidating, net, 0);
        State() == ReplayStep(s, ByApproval(message), category, p, net(j)).0 && p.Reporting? && ok == p.ok
    {
      var j := 1;
      ok := true;
      if category == "" {
        ReplayIgnores(State(), ByApproval(message), category, net);
      } else {
        ReplayInvalidates(State(), ByApproval(message), category, net);
        hide RunReplay;
        registry.Invalidate(category);
        var n;
        n, ok, j := ReplayCategory(category, net, 1, ByApproval(message));
      }
      if ok && net(j).outcome.TookEffect() { approvalsAcked := approvalsAcked + {message}; }
    }

    // handleIngest
    method HandleIngest(message: nat, decoded: Option<Envelope>, net: nat -> Answer)
      modifies this, store, registry
      ensures match decoded
        case None =>
          var (s, p) := IngestStep(old(State()), message, Garbage, net(0));
          State() == IngestStep(s, message, p, net(1)).0
        case Some(e) =>
          var (s, c, j) := RunCall(old(State()), Call(e, Start), net, 0);
          State() == IngestStep(s, message, Settling(!c.pc.Failed?), net(j)).0
    {
      hide RunCall;
      if decoded.None? {
        quarantined := quarantined + 1;
        unparseable := unparseable + 1;
        if net(1).outcome.TookEffect() { acked := acked + {message}; }
        return;
      }
      var result, j := Process(decoded.value, net, 0);
      if !result.Failed? && net(j).outcome.TookEffect() { acked := acked + {message}; }
    }
  }
}
