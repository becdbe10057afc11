/**
 What one call of Process does when nothing goes wrong, from any state: which schema judges the
 event, what the verdict is, and what is stored where (internal/normalizer/worker.go:167-275).
 */
module Verdicts {
  import opened Prelude
  import opened Json
  import opened SchemaInference
  import opened Envelopes
  import opened RegistryTables
  import opened RegistryClient
  import opened QuarantineTable
  import opened Normalizer

  // --- Destinations ---

  // The places to serve, in order: the targets, or the one target, or postgres.
  lemma DestinationsAre(routing: Routing)
    ensures routing.targets != [] ==> Destinations(routing) == routing.targets
    ensures routing.targets == [] && routing.target != "" ==> Destinations(routing) == [routing.target]
    ensures routing.targets == [] && routing.target == "" ==> Destinations(routing) == ["postgres"]
  {
  }

  // How many of these names are postgres or unknown.
  function PostgresNames(dests: seq<string>): nat {
    if dests == [] then 0
    else (if dests[0] != "loki" && dests[0] != "tempo" && dests[0] != "mimir" then 1 else 0) + PostgresNames(dests[1..])
  }

  function LokiNames(dests: seq<string>): nat {
    if dests == [] then 0 else (if dests[0] == "loki" then 1 else 0) + LokiNames(dests[1..])
  }

  function Copies<T>(s: seq<T>, x: T, n: nat): seq<T>
    decreases n
  {
    if n == 0 then s else Copies(s + [x], x, n - 1)
  }

  // The state once these places have been served, with `row` for postgres.
  function Served(s: Shared, e: Envelope, row: EventRow, dests: seq<string>): Shared {
    s.(tables := s.tables.(events := Copies(s.tables.events, row, PostgresNames(dests))),
       loki := Copies(s.loki, e, if s.lokiSet then LokiNames(dests) else 0))
  }

  // The row that an insert adds: the category's id and its active version's.
  function RowFor(t: Tables, e: Envelope): EventRow
    requires ActiveSchema(t, e.category).Some?
  {
    EventRow(t.categories[e.category], ActiveSchema(t, e.category).value.id, e)
  }

  ghost predicate Routable(s: Shared, e: Envelope) {
    Inv(s.tables) && e.category in s.tables.categories
  }

  lemma InsertsRow(s: Shared, e: Envelope)
    requires Routable(s, e)
    ensures var t := s.tables;
      && ActiveSchema(t, e.category).Some?
      && ResolveForInsert(t, e.category) == Some((t.categories[e.category], ActiveSchema(t, e.category).value.id))
      && var t' := t.(events := t.events + [RowFor(t, e)]);
      && InsertEvent(t, t.categories[e.category], ActiveSchema(t, e.category).value.id, e) == Some(t')
      && Inv(t') && ActiveSchema(t', e.category) == ActiveSchema(t, e.category)
  {
    var t := s.tables;
    QueriesAgree(t, e.category);
    var active := ActiveSchema(t, e.category).value;
    assert t.categories[e.category] in t.categories.Values;
    assert HasSchema(t, active.id) by {
      var k :| 0 <= k < |t.schemas| && t.schemas[k] == active;
      assert t.schemas[k].id == active.id;
    }
    InsertKeepsInv(t, t.categories[e.category], active.id, e);
    hide Inv; hide BestActive; hide Current; hide HasSchema;
  }

  // One place: what it adds, and that it reports no error.
  lemma ServesOne(s: Shared, e: Envelope, dests: seq<string>, k: nat)
    requires Routable(s, e) && k < |dests| && ActiveSchema(s.tables, e.category).Some?
    ensures var (s', ok, done, used) := RouteAlone(s, e, dests, k, Ok, Ok);
      && ok && s' == Served(s, e, RowFor(s.tables, e), [dests[k]])
      && Routable(s', e) && ActiveSchema(s'.tables, e.category) == ActiveSchema(s.tables, e.category)
  {
    InsertsRow(s, e);
    OneName(dests[k]);
    OneCopy(s.tables.events, RowFor(s.tables, e));
    OneCopy(s.loki, e);
    hide Inv; hide ActiveSchema; hide RegistryTables.InsertEvent; hide ResolveForInsert; hide PostgresNames;
    hide LokiNames; hide Copies;
  }

  lemma OneCopy<T>(s: seq<T>, x: T)
    ensures Copies(s, x, 0) == s && Copies(s, x, 1) == s + [x]
  {
    assert Copies(s + [x], x, 0) == s + [x];
  }

  lemma OneName(dest: string)
    ensures PostgresNames([dest]) == if ToPostgres(dest) then 1 else 0
    ensures LokiNames([dest]) == if dest == "loki" then 1 else 0
  {
    assert [dest][1..] == [];
  }

  lemma {:induction false} CopiesTwice<T>(s: seq<T>, x: T, n: nat, m: nat)
    ensures Copies(Copies(s, x, n), x, m) == Copies(s, x, n + m)
    decreases n
  {
    if n > 0 { CopiesTwice(s + [x], x, n - 1, m); }
  }

  lemma FirstName(dests: seq<string>)
    requires dests != []
    ensures PostgresNames(dests) == PostgresNames([dests[0]]) + PostgresNames(dests[1..])
    ensures LokiNames(dests) == LokiNames([dests[0]]) + LokiNames(dests[1..])
  {
    OneName(dests[0]);
  }

  lemma ServedMore(s: Shared, e: Envelope, row: EventRow, dests: seq<string>)
    requires dests != []
    ensures Served(Served(s, e, row, [dests[0]]), e, row, dests[1..]) == Served(s, e, row, dests)
  {
    FirstName(dests);
    hide PostgresNames; hide LokiNames; hide Copies;
    CopiesTwice(s.tables.events, row, PostgresNames([dests[0]]), PostgresNames(dests[1..]));
    CopiesTwice(s.loki, e, if s.lokiSet then LokiNames([dests[0]]) else 0,
                if s.lokiSet then LokiNames(dests[1..]) else 0);
  }

  function RoutedIn(s: Shared, c: Call): Shared {
    s.(counts := s.counts.(routed := s.counts.routed + 1), finished := s.finished + [c])
  }

  // The loop over the places from k on.
  lemma {:induction false} ServesAll(s: Shared, e: Envelope, schema: RegistrySchema, k: nat, net: nat -> Answer, i: nat)
    requires Routable(s, e) && ActiveSchema(s.tables, e.category).Some? && k <= |Destinations(schema.routing)|
    requires forall j :: net(j).outcome == Ok
    ensures var c := Call(e, Routed(schema));
      var (s', c', _) := RunFrom(s, e, schema, k, net, i);
      && c' == c
      && s' == RoutedIn(Served(s, e, RowFor(s.tables, e), Destinations(schema.routing)[k..]), c)
    decreases |Destinations(schema.routing)| - k
  {
    var dests, row := Destinations(schema.routing), RowFor(s.tables, e);
    if k == |dests| {
      assert dests[k..] == [];
      hide Destinations; hide ActiveSchema;
    } else {
      var s1, j := ServesNext(s, e, schema, k, net, i);
      hide RunFrom; hide Routable; hide Destinations; hide ActiveSchema; hide Served;
      ServesAll(s1, e, schema, k + 1, net, j);
    }
  }

  // Serving place k leaves the rest of the loop.
  lemma ServesNext(s: Shared, e: Envelope, schema: RegistrySchema, k: nat, net: nat -> Answer, i: nat)
    returns (s1: Shared, j: nat)
    requires Routable(s, e) && ActiveSchema(s.tables, e.category).Some? && k < |Destinations(schema.routing)|
    requires forall j :: net(j).outcome == Ok
    ensures var dests, row := Destinations(schema.routing), RowFor(s.tables, e);
      && RunFrom(s, e, schema, k, net, i) == RunFrom(s1, e, schema, k + 1, net, j)
      && Routable(s1, e) && ActiveSchema(s1.tables, e.category).Some? && RowFor(s1.tables, e) == row
      && Served(s1, e, row, dests[k + 1..]) == Served(s, e, row, dests[k..])
  {
    var dests, row := Destinations(schema.routing), RowFor(s.tables, e);
    var left := dests[k..];
    assert left[0] == dests[k] && left[1..] == dests[k + 1..];
    assert net(i).outcome == Ok && net(i + 1).outcome == Ok;
    hide RouteAlone; hide RunFrom; hide Routable; hide Destinations; hide ActiveSchema;
    RouteRuns(s, e, schema, k, net, i);
    ServesOne(s, e, dests, k);
    ServedMore(s, e, row, left);
    var (next, _, _, used) := RouteAlone(s, e, dests, k, Ok, Ok);
    s1 := next;
    SameRow(s, s1, e);
    hide Served;
    j := i + used;
  }

  lemma SameRow(s: Shared, s1: Shared, e: Envelope)
    requires ActiveSchema(s.tables, e.category).Some? && s1.tables.categories == s.tables.categories
    requires ActiveSchema(s1.tables, e.category) == ActiveSchema(s.tables, e.category)
    ensures RowFor(s1.tables, e) == RowFor(s.tables, e)
  {
    hide ActiveSchema;
  }

  // --- The verdict ---

  // Every external call succeeds.
  ghost predicate NoTrouble(net: nat -> Answer) {
    forall i :: net(i).fault == NoFault && net(i).outcome == Ok
  }

  ghost predicate InCache(s: Shared, c: string, now: real) {
    c in s.cache && now - s.cache[c].fetchedAt < 30.0
  }

  // The schema that judges events of c: the cached one if it is less than 30 seconds old, otherwise
  // the active version.
  ghost predicate Judges(s: Shared, c: string, now: real, schema: RegistrySchema) {
    if InCache(s, c, now) then schema == s.cache[c].schema else Sends(s.tables, c, schema)
  }

  ghost predicate NoneJudges(s: Shared, c: string, now: real) {
    !InCache(s, c, now) && c !in s.tables.categories
  }

  lemma SomeJudges(s: Shared, c: string, now: real)
    requires Inv(s.tables) && !NoneJudges(s, c, now)
    ensures exists schema :: Judges(s, c, now, schema)
  {
    if InCache(s, c, now) {
      assert Judges(s, c, now, s.cache[c].schema);
    } else {
      QueriesAgree(s.tables, c);
      hide Inv;
      var row := ActiveSchema(s.tables, c).value;
      assert Judges(s, c, now, RegistrySchema(c, row.version, row.document, row.routing));
    }
  }

  // The event has a row of its own, or one attempt more in it, and a copy on the quarantine stream.
  ghost predicate QuarantinedIn(s: Shared, s': Shared, e: Envelope, reason: Reason) {
    && (DistinctRows(s.rows) ==> Upserted(s.rows, s'.rows, e, reason))
    && s'.stream == s.stream + [e] && s'.tables == s.tables && s'.loki == s.loki
    && s'.counts == s.counts.(processed := s.counts.processed + 1, quarantined := s.counts.quarantined + 1,
                              failedValid := s.counts.failedValid + if reason.SchemaValidationFailed? then 1 else 0)
  }

  // It has a row for each place that is postgres or unknown, and a push for each that is loki.
  ghost predicate RoutedTo(s: Shared, s': Shared, e: Envelope, dests: seq<string>)
    requires ActiveSchema(s.tables, e.category).Some?
  {
    && s'.tables == s.tables.(events := Copies(s.tables.events, RowFor(s.tables, e), PostgresNames(dests)))
    && s'.loki == Copies(s.loki, e, if s.lokiSet then LokiNames(dests) else 0)
    && s'.rows == s.rows && s'.stream == s.stream
    && s'.counts == s.counts.(processed := s.counts.processed + 1, routed := s.counts.routed + 1)
  }

  ghost predicate PlacesAre(routing: Routing, dests: seq<string>) {
    && (routing.targets != [] ==> dests == routing.targets)
    && (routing.targets == [] && routing.target != "" ==> dests == [routing.target])
    && (routing.targets == [] && routing.target == "" ==> dests == ["postgres"])
  }

  // What the lookup finds.
  lemma LookUpFinds(s: Shared, c: string, a: Answer)
    requires Inv(s.tables) && a.fault == NoFault
    ensures var r := Get(s.cache, c, a.now, RegistryClient.Answer(s.tables, c, a.fault)).1;
      && (NoneJudges(s, c, a.now) ==> r.SchemaNotFound?)
      && (forall schema | Judges(s, c, a.now, schema) :: r == Found(schema))
  {
    if c in s.tables.categories { QueriesAgree(s.tables, c); }
    hide Inv; hide ActiveSchema;
  }

  // No schema, or one that the event fails: recorded and published.
  lemma QuarantinesIt(s: Shared, s1: Shared, e: Envelope, reason: Reason, net: nat -> Answer, i: nat)
    requires NoTrouble(net)
    requires s1 == s.(cache := s1.cache, counts := s.counts.(processed := s.counts.processed + 1,
               failedValid := s.counts.failedValid + if reason.SchemaValidationFailed? then 1 else 0))
    ensures var (s', c', _) := RunCall(s1, Call(e, Record(reason)), net, i);
      c'.pc == Quarantined(reason) && QuarantinedIn(s, s', e, reason)
  {
    assert net(i).outcome == Ok && net(i + 1).outcome == Ok;
    QuarantineRuns(s1, e, reason, net, i);
    if DistinctRows(s.rows) { UpsertEffect(s.rows, e, reason); }
    hide RunCall; hide Upsert; hide Upserted; hide DistinctRows; hide NoTrouble;
  }

  // One that it conforms to: routed.
  lemma RoutesIt(s: Shared, s1: Shared, e: Envelope, schema: RegistrySchema, net: nat -> Answer, i: nat)
    requires NoTrouble(net) && Routable(s, e)
    requires s1 == s.(cache := s1.cache, counts := s.counts.(processed := s.counts.processed + 1))
    ensures ActiveSchema(s.tables, e.category).Some?
    ensures var (s', c', _) := RunFrom(s1, e, schema, 0, net, i);
      && c'.pc == Routed(schema)
      && forall dests | PlacesAre(schema.routing, dests) :: RoutedTo(s, s', e, dests)
  {
    InsertsRow(s, e);
    DestinationsAre(schema.routing);
    var dests := Destinations(schema.routing);
    assert dests[0..] == dests;
    ServesAll(s1, e, schema, 0, net, i);
    hide RunFrom; hide Copies; hide PostgresNames; hide LokiNames; hide ActiveSchema; hide Destinations; hide Inv;
  }

  // The first step of a call, by what the lookup finds.
  function Looked(s: Shared, cache: Cache, failed: nat): Shared {
    s.(cache := cache,
       counts := s.counts.(processed := s.counts.processed + 1, failedValid := s.counts.failedValid + failed))
  }

  lemma LookUpStep(s: Shared, e: Envelope, a: Answer)
    ensures var (cache, r) := Get(s.cache, e.category, a.now, RegistryClient.Answer(s.tables, e.category, a.fault));
      var (s1, c1) := LookUp(s, Call(e, Start), a);
      && (r.SchemaNotFound? ==> s1 == Looked(s, cache, 0) && c1 == Call(e, Record(UnknownCategory)))
      && (r.Found? ==>
            var v := Validate(r.schema.document, e.payload);
            && (v.Unloadable? ==> c1.pc.Failed? && s1 == Looked(s, cache, 0).(finished := s1.finished))
            && (v.Invalid? ==>
                  s1 == Looked(s, cache, 1) && c1 == Call(e, Record(SchemaValidationFailed(r.schema.version))))
            && (v.Valid? ==> (s1, c1) == Proceed(Looked(s, cache, 0), Call(e, Start), r.schema, 0)))
  {
    hide Get; hide RegistryClient.Answer; hide Validate; hide Destinations;
    var (cache, r) := Get(s.cache, e.category, a.now, RegistryClient.Answer(s.tables, e.category, a.fault));
  }

  // Main result: from any state, when nothing goes wrong, an event is quarantined as unknown if no
  // schema judges it; otherwise it is routed to every place the schema names if it conforms to the
  // schema, quarantined under the schema's version if it does not, and left with an error if the
  // validator cannot load the schema.
  lemma ProcessDecides(s: Shared, e: Envelope, net: nat -> Answer, i: nat)
    requires Inv(s.tables) && NoTrouble(net)
    ensures var (s', c', _) := RunCall(s, Call(e, Start), net, i);
      && (NoneJudges(s, e.category, net(i).now) ==>
            c'.pc == Quarantined(UnknownCategory) && QuarantinedIn(s, s', e, UnknownCategory))
      && forall schema | Judges(s, e.category, net(i).now, schema) :: Decided(s, s', c', e, schema)
  {
    assert net(i).fault == NoFault;
    hide *;
    LookUpFinds(s, e.category, net(i));
    if NoneJudges(s, e.category, net(i).now) { MissingDecides(s, e, net, i); }
    forall schema | Judges(s, e.category, net(i).now, schema)
      ensures var (s', c', _) := RunCall(s, Call(e, Start), net, i); Decided(s, s', c', e, schema)
    {
      FoundDecides(s, e, schema, net, i);
    }
  }

  lemma MissingDecides(s: Shared, e: Envelope, net: nat -> Answer, i: nat)
    requires NoTrouble(net)
    requires Get(s.cache, e.category, net(i).now, RegistryClient.Answer(s.tables, e.category, net(i).fault)).1
             .SchemaNotFound?
    ensures var (s', c', _) := RunCall(s, Call(e, Start), net, i);
      c'.pc == Quarantined(UnknownCategory) && QuarantinedIn(s, s', e, UnknownCategory)
  {
    RunFromStart(s, e, net, i);
    LookUpStep(s, e, net(i));
    hide Get; hide RegistryClient.Answer; hide NoTrouble; hide QuarantinedIn; hide LookUp; hide RunCall;
    QuarantinesIt(s, LookUp(s, Call(e, Start), net(i)).0, e, UnknownCategory, net, i + 1);
  }

  ghost predicate Decided(s: Shared, s': Shared, c: Call, e: Envelope, schema: RegistrySchema) {
    && (schema.document.Unusable? ==>
          c.pc.Failed? && s'.tables == s.tables && s'.loki == s.loki && s'.rows == s.rows && s'.stream == s.stream)
    && (!schema.document.Unusable? && !Conforms(schema.document, e.payload) ==>
          && c.pc == Quarantined(SchemaValidationFailed(schema.version))
          && QuarantinedIn(s, s', e, SchemaValidationFailed(schema.version)))
    && (Conforms(schema.document, e.payload) && e.category in s.tables.categories ==>
          && c.pc == Routed(schema) && ActiveSchema(s.tables, e.category).Some?
          && forall dests | PlacesAre(schema.routing, dests) :: RoutedTo(s, s', e, dests))
  }

  lemma FoundDecides(s: Shared, e: Envelope, schema: RegistrySchema, net: nat -> Answer, i: nat)
    requires Inv(s.tables) && NoTrouble(net)
    requires Get(s.cache, e.category, net(i).now, RegistryClient.Answer(s.tables, e.category, net(i).fault)).1
             == Found(schema)
    ensures var (s', c', _) := RunCall(s, Call(e, Start), net, i); Decided(s, s', c', e, schema)
  {
    RunFromStart(s, e, net, i);
    ValidateIff(schema.document, e.payload);
    ConformsToUsable(schema.document, e.payload);
    LookUpStep(s, e, net(i));
    var (s1, c1) := LookUp(s, Call(e, Start), net(i));
    hide Get; hide RegistryClient.Answer; hide Validate; hide NoTrouble; hide QuarantinedIn; hide RoutedTo;
    hide LookUp; hide Conforms; hide RunCall; hide PlacesAre; hide Inv; hide Proceed; hide ActiveSchema;
    if schema.document.Unusable? {
    } else if !Conforms(schema.document, e.payload) {
      QuarantinesIt(s, s1, e, SchemaValidationFailed(schema.version), net, i + 1);
    } else if e.category in s.tables.categories {
      RoutesIt(s, Looked(s, s1.cache, 0), e, schema, net, i + 1);
      ProceedRuns(Looked(s, s1.cache, 0), e, schema, net, i + 1);
      ProceedCache(Looked(s, Get(s.cache, e.category, net(i).now,
                                 RegistryClient.Answer(s.tables, e.category, net(i).fault)).0, 0), e, schema);
    }
  }

  lemma ProceedCache(s: Shared, e: Envelope, schema: RegistrySchema)
    ensures Proceed(s, Call(e, Start), schema, 0).0.cache == s.cache
  {
    hide Destinations;
  }

  lemma ProceedRuns(s: Shared, e: Envelope, schema: RegistrySchema, net: nat -> Answer, i: nat)
    ensures var (s1, c1) := Proceed(s, Call(e, Start), schema, 0);
      RunCall(s1, c1, net, i) == RunFrom(s, e, schema, 0, net, i)
  {
    hide RunCall; hide Proceed;
  }

  lemma ConformsToUsable(document: Schema, payload: Option<Payload>)
    ensures Conforms(document, payload) ==> !document.Unusable?
  {
  }
}
