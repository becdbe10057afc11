/**
 The normalizer's schema cache (internal/normalizer/registry_client.go): a TTL cache with
 last-known fallback and invalidation. GetSchema is one atomic step.
 */
module RegistryClient {
  import opened Prelude
  import opened SchemaInference
  import opened RegistryTables

  datatype RegistrySchema = RegistrySchema(category: string, version: nat, document: Schema, routing: Routing)

  datatype CachedSchema = CachedSchema(schema: RegistrySchema, fetchedAt: real)

  // How the HTTP request ends.
  datatype Reply = Unreachable | Ok200(schema: RegistrySchema) | NotFound404 | OtherStatus(code: nat) | BadBody

  datatype Lookup = Found(schema: RegistrySchema) | SchemaNotFound | LookupError

  type Cache = map<string, CachedSchema>

  const TTL := 30.0

  predicate Fresh(cache: Cache, category: string, now: real) {
    category in cache && now - cache[category].fetchedAt < TTL
  }

  function Get(cache: Cache, category: string, now: real, reply: Reply): (Cache, Lookup) {
    if Fresh(cache, category, now) then (cache, Found(cache[category].schema))
    else match reply
      case Unreachable => (cache, if category in cache then Found(cache[category].schema) else LookupError)
      case NotFound404 => (cache, SchemaNotFound)
      case OtherStatus(_) => (cache, LookupError)
      case BadBody => (cache, LookupError)
      case Ok200(schema) => (cache[category := CachedSchema(schema, now)], Found(schema))
  }

  class Client {
    var cache: Cache

    constructor ()
      ensures cache == map[]
    {
      cache := map[];
    }

    method GetSchema(category: string, now: real, reply: Reply) returns (r: Lookup)
      modifies this
      ensures (cache, r) == Get(old(cache), category, now, reply)
    {
      if category in cache {
        var cached := cache[category];
        if now - cached.fetchedAt < TTL { return Found(cached.schema); }
      }
      match reply
      case Unreachable =>
        if category in cache { return Found(cache[category].schema); }
        return LookupError;
      case NotFound404 => return SchemaNotFound;
      case OtherStatus(_) => return LookupError;
      case BadBody => return LookupError;
      case Ok200(schema) =>
        cache := cache[category := CachedSchema(schema, now)];
        return Found(schema);
    }

    method Invalidate(category: string)
      modifies this
      ensures cache == old(cache) - {category}
    {
      cache := map c | c in cache && c != category :: cache[c];
    }
  }

  // --- Runs against a registry ---

  // What can go wrong with a request; without a fault the registry answers from its tables.
  datatype Fault = NoFault | Down | BadStatus(code: nat) | Garbled

  function Serve(t: Tables, category: string): Reply {
    match ActiveSchema(t, category)
    case Some(row) => Ok200(RegistrySchema(category, row.version, row.document, row.routing))
    case None => NotFound404
  }

  function Answer(t: Tables, category: string, fault: Fault): Reply {
    match fault
    case NoFault => Serve(t, category)
    case Down => Unreachable
    case BadStatus(code) => OtherStatus(code)
    case Garbled => if Serve(t, category).Ok200? then BadBody else Serve(t, category)
  }

  datatype Event = Registry(op: Op) | Ask(category: string, fault: Fault) | Drop(category: string)

  datatype Timed = Timed(event: Event, at: real)

  ghost predicate InOrder(run: seq<Timed>) {
    forall i, j | 0 <= i < j < |run| :: run[i].at <= run[j].at
  }

  // Registry tables and cache after the first n events.
  function TablesAt(run: seq<Timed>, n: nat): Tables
    requires n <= |run|
  {
    if n == 0 then EMPTY else
      match run[n - 1].event
      case Registry(op) => Apply(TablesAt(run, n - 1), op)
      case _ => TablesAt(run, n - 1)
  }

  function CacheAt(run: seq<Timed>, n: nat): Cache
    requires n <= |run|
  {
    if n == 0 then map[] else
      var cache := CacheAt(run, n - 1);
      match run[n - 1].event
      case Registry(_) => cache
      case Ask(category, fault) => Get(cache, category, run[n - 1].at, Answer(TablesAt(run, n - 1), category, fault)).0
      case Drop(category) => cache - {category}
  }

  function Result(run: seq<Timed>, i: nat): Lookup
    requires i < |run| && run[i].event.Ask?
  {
    Get(CacheAt(run, i), run[i].event.category, run[i].at,
      Answer(TablesAt(run, i), run[i].event.category, run[i].event.fault)).1
  }

  // Event i is a request for c that the registry answered with 200 and a readable body.
  predicate Fetched(run: seq<Timed>, i: nat, c: string)
    requires i < |run|
  {
    run[i].event.Ask? && run[i].event.category == c
    && !Fresh(CacheAt(run, i), c, run[i].at) && Answer(TablesAt(run, i), c, run[i].event.fault).Ok200?
  }

  // j is the last such request among the first n events, with no invalidation of c after it.
  ghost predicate LastAnswer(run: seq<Timed>, n: nat, c: string, j: nat)
    requires n <= |run|
  {
    && j < n && Fetched(run, j, c)
    && forall k | j < k < n :: !Fetched(run, k, c) && run[k].event != Drop(c)
  }

  ghost predicate NoAnswer(run: seq<Timed>, n: nat, c: string)
    requires n <= |run|
  {
    forall j | 0 <= j < n && Fetched(run, j, c) :: exists k :: j < k < n && run[k].event == Drop(c)
  }

  // The entry that answer j leaves behind.
  function EntryOf(run: seq<Timed>, j: nat, c: string): CachedSchema
    requires j < |run| && Serve(TablesAt(run, j), c).Ok200?
  {
    CachedSchema(Serve(TablesAt(run, j), c).schema, run[j].at)
  }

  // A category's entry is exactly the last 200 answer since its last invalidation.
  lemma {:induction false} EntryIsLastAnswer(run: seq<Timed>, n: nat, c: string)
    requires n <= |run|
    ensures c in CacheAt(run, n) ==> exists j :: LastAnswer(run, n, c, j) && CacheAt(run, n)[c] == EntryOf(run, j, c)
    ensures c !in CacheAt(run, n) ==> NoAnswer(run, n, c)
  {
    if n > 0 {
      var m := n - 1;
      EntryIsLastAnswer(run, m, c);
      if Fetched(run, m, c) {
        assert LastAnswer(run, n, c, m) && CacheAt(run, n)[c] == EntryOf(run, m, c);
      } else if run[m].event == Drop(c) {
        assert c !in CacheAt(run, n);
      } else {
        UntouchedEntry(run, m, c);
        if c in CacheAt(run, m) {
          var j :| LastAnswer(run, m, c, j) && CacheAt(run, m)[c] == EntryOf(run, j, c);
          assert LastAnswer(run, n, c, j);
        } else {
          forall j | 0 <= j < n && Fetched(run, j, c) ensures exists k :: j < k < n && run[k].event == Drop(c) {
            var k :| j < k < m && run[k].event == Drop(c);
          }
        }
      }
    }
  }

  lemma UntouchedEntry(run: seq<Timed>, m: nat, c: string)
    requires m < |run| && !Fetched(run, m, c) && run[m].event != Drop(c)
    ensures c in CacheAt(run, m + 1) <==> c in CacheAt(run, m)
    ensures c in CacheAt(run, m) ==> CacheAt(run, m + 1)[c] == CacheAt(run, m)[c]
  {
  }

  // What the registry said about c at event j, told again at event i.
  ghost predicate OnceActive(run: seq<Timed>, i: nat, c: string, j: nat, s: RegistrySchema)
    requires i < |run|
  {
    && j <= i && Serve(TablesAt(run, j), c) == Ok200(s)
    && forall k | j < k < i :: run[k].event != Drop(c)
  }

  // Main result: every answer of the cache is justified by the registry it stands in for.
  //   found    - current, when fetched; otherwise active at an earlier fetch, which is less
  //              than TTL ago unless the request itself failed;
  //   missing  - only if the registry has no schema now;
  //   an error - only if the request failed with nothing known, or gave another status or an
  //              unreadable body.
  lemma AnswersAgree(run: seq<Timed>, i: nat)
    requires InOrder(run) && i < |run| && run[i].event.Ask?
    ensures var Ask(c, fault) := run[i].event;
      var young := Fresh(CacheAt(run, i), c, run[i].at);
      match Result(run, i)
      case Found(s) =>
        if Fetched(run, i, c) then OnceActive(run, i, c, i, s)
        else
          (young || fault == Down)
          && exists j: nat :: OnceActive(run, i, c, j, s) && j < i && (young ==> run[i].at - run[j].at < TTL)
      case SchemaNotFound => !young && (fault.NoFault? || fault.Garbled?) && ActiveSchema(TablesAt(run, i), c) == None
      case LookupError => !young && (fault.BadStatus? || fault.Garbled? || (fault.Down? && NoAnswer(run, i, c)))
  {
    EntryIsLastAnswer(run, i, run[i].event.category);
  }

  // --- Which requests reach the registry, and what every lookup says ---

  // The active version of c, as the registry sends it.
  ghost predicate Sends(t: Tables, c: string, s: RegistrySchema) {
    && ActiveSchema(t, c).Some?
    && var row := ActiveSchema(t, c).value;
       s.category == c && s.version == row.version && s.document == row.document && s.routing == row.routing
  }

  // At event i answer j is young: it came less than 30 seconds before, with no invalidation since.
  ghost predicate StillYoung(run: seq<Timed>, i: nat, j: nat, c: string)
    requires j < i < |run|
  {
    && run[i].at - run[j].at < 30.0
    && forall k | j < k < i :: run[k].event != Drop(c)
  }

  // Event j is a lookup of c that the registry answers with a schema: nothing goes wrong, it has
  // one, and no earlier answer is still young.
  ghost predicate Answered(run: seq<Timed>, j: nat, c: string)
    requires j < |run|
    decreases j
  {
    && run[j].event == Ask(c, NoFault) && ActiveSchema(TablesAt(run, j), c).Some?
    && forall k | 0 <= k < j && Answered(run, k, c) :: !StillYoung(run, j, k, c)
  }

  // j is the last answer before i, and c has not been invalidated since.
  ghost predicate LastKnown(run: seq<Timed>, i: nat, c: string, j: nat)
    requires i < |run|
  {
    && j < i && Answered(run, j, c)
    && forall k | j < k < i :: !Answered(run, k, c) && run[k].event != Drop(c)
  }

  ghost predicate HasYoung(run: seq<Timed>, i: nat, c: string)
    requires i < |run|
  {
    exists j: nat :: j < i && Answered(run, j, c) && StillYoung(run, i, j, c)
  }

  // An answer that is not invalidated stays in the cache, or a later one takes its place.
  lemma {:induction false} AnswerKept(run: seq<Timed>, k: nat, n: nat, c: string)
    requires InOrder(run) && k < n <= |run| && Fetched(run, k, c) && forall d | k < d < n :: run[d].event != Drop(c)
    ensures c in CacheAt(run, n) && CacheAt(run, n)[c].fetchedAt >= run[k].at
    decreases n
  {
    hide TablesAt; hide ActiveSchema;
    if k < n - 1 { AnswerKept(run, k, n - 1, c); }
  }

  // The cache's entry is fresh exactly when some answer is young.
  lemma FreshIffYoung(run: seq<Timed>, i: nat, c: string)
    requires InOrder(run) && i < |run|
    requires forall k | 0 <= k < i :: Fetched(run, k, c) <==> Answered(run, k, c)
    ensures Fresh(CacheAt(run, i), c, run[i].at) <==> HasYoung(run, i, c)
  {
    EntryIsLastAnswer(run, i, c);
    hide CacheAt; hide TablesAt; hide Answered; hide Fetched; hide InOrder;
    if Fresh(CacheAt(run, i), c, run[i].at) {
      var j: nat :| LastAnswer(run, i, c, j) && CacheAt(run, i)[c] == EntryOf(run, j, c);
      assert StillYoung(run, i, j, c);
    }
    if HasYoung(run, i, c) {
      var k: nat :| k < i && Answered(run, k, c) && StillYoung(run, i, k, c);
      AnswerKept(run, k, i, c);
    }
  }

  lemma {:induction false} FetchedIffAnswered(run: seq<Timed>, i: nat, c: string)
    requires InOrder(run) && i < |run|
    ensures Fetched(run, i, c) <==> Answered(run, i, c)
  {
    forall k | 0 <= k < i ensures Fetched(run, k, c) <==> Answered(run, k, c) { FetchedIffAnswered(run, k, c); }
    FreshIffYoung(run, i, c);
    hide CacheAt; hide TablesAt; hide StillYoung;
  }

  lemma LastIsKnown(run: seq<Timed>, i: nat, c: string, j: nat)
    requires InOrder(run) && i < |run| && j < |run|
    ensures LastKnown(run, i, c, j) <==> LastAnswer(run, i, c, j)
  {
    forall k | 0 <= k < |run| ensures Fetched(run, k, c) <==> Answered(run, k, c) { FetchedIffAnswered(run, k, c); }
    hide Fetched; hide Answered;
  }

  lemma OneLast(run: seq<Timed>, i: nat, c: string, j: nat, k: nat)
    requires i < |run| && LastKnown(run, i, c, j) && LastKnown(run, i, c, k)
    ensures j == k
  {
    hide Answered;
  }

  // The entry that the cache holds is the last answer that is known, and no other is.
  lemma EntryIsKnown(run: seq<Timed>, i: nat, c: string, j: nat)
    requires InOrder(run) && i < |run| && LastKnown(run, i, c, j)
    ensures c in CacheAt(run, i) && CacheAt(run, i)[c].fetchedAt == run[j].at
    ensures Sends(TablesAt(run, j), c, CacheAt(run, i)[c].schema)
  {
    LastIsKnown(run, i, c, j);
    EntryIsLastAnswer(run, i, c);
    hide CacheAt; hide Answered; hide ActiveSchema; hide TablesAt;
    if c in CacheAt(run, i) {
      var k: nat :| LastAnswer(run, i, c, k) && CacheAt(run, i)[c] == EntryOf(run, k, c);
      LastIsKnown(run, i, c, k);
      OneLast(run, i, c, j, k);
    }
  }

  lemma NothingKnown(run: seq<Timed>, i: nat, c: string)
    requires InOrder(run) && i < |run| && forall j: nat | j < i :: !LastKnown(run, i, c, j)
    ensures c !in CacheAt(run, i)
  {
    EntryIsLastAnswer(run, i, c);
    hide CacheAt; hide Answered; hide ActiveSchema; hide TablesAt;
    if c in CacheAt(run, i) {
      var k: nat :| LastAnswer(run, i, c, k) && CacheAt(run, i)[c] == EntryOf(run, k, c);
      LastIsKnown(run, i, c, k);
    }
  }

  // What a lookup says if no answer is young: what the registry answers now, or the last known
  // answer, however old, if the registry cannot be reached.
  ghost predicate SaysAnew(run: seq<Timed>, i: nat, c: string, fault: Fault, r: Lookup)
    requires i < |run|
  {
    var t := TablesAt(run, i);
    match fault
    case NoFault => if ActiveSchema(t, c).Some? then r.Found? && Sends(t, c, r.schema) else r.SchemaNotFound?
    case Down =>
      && (forall j: nat | j < i && LastKnown(run, i, c, j) :: r.Found? && Sends(TablesAt(run, j), c, r.schema))
      && ((forall j: nat | j < i :: !LastKnown(run, i, c, j)) ==> r.LookupError?)
    case BadStatus(_) => r.LookupError?
    case Garbled => if ActiveSchema(t, c).Some? then r.LookupError? else r.SchemaNotFound?
  }

  // Main result: a lookup within 30 seconds of the last answer, with no invalidation since, says
  // what the registry said then, whatever is wrong with the registry now. Every other lookup asks.
  lemma LookupSays(run: seq<Timed>, i: nat)
    requires InOrder(run) && i < |run| && run[i].event.Ask?
    ensures var Ask(c, fault) := run[i].event;
      var r := Result(run, i);
      && (forall j: nat | j < i && LastKnown(run, i, c, j) && run[i].at - run[j].at < 30.0 ::
            r.Found? && Sends(TablesAt(run, j), c, r.schema))
      && ((forall j: nat | j < i && LastKnown(run, i, c, j) :: run[i].at - run[j].at >= 30.0)
          ==> SaysAnew(run, i, c, fault, r))
  {
    var Ask(c, fault) := run[i].event;
    hide TablesAt; hide CacheAt; hide ActiveSchema; hide LastKnown;
    forall j: nat | j < i && LastKnown(run, i, c, j)
      ensures c in CacheAt(run, i) && CacheAt(run, i)[c].fetchedAt == run[j].at
      ensures Sends(TablesAt(run, j), c, CacheAt(run, i)[c].schema)
    {
      EntryIsKnown(run, i, c, j);
    }
    if forall j: nat | j < i :: !LastKnown(run, i, c, j) { NothingKnown(run, i, c); }
  }

  // --- Versions seen through the cache ---

  // The registry has reached version v of category c and the cache holds nothing older.
  ghost predicate Floor(t: Tables, cache: Cache, c: string, v: nat) {
    && Inv(t) && c in t.categories && Current(t, c) >= v
    && (c in cache ==> cache[c].schema.version >= v)
  }

  lemma InvalidateSetsFloor(t: Tables, cache: Cache, c: string, v: nat)
    requires Inv(t) && c in t.categories && Current(t, c) >= v
    ensures Floor(t, cache - {c}, c, v)
  {
  }

  // A lookup keeps the floor, and its answer is version v or later, or an error.
  lemma GetAboveFloor(t: Tables, cache: Cache, c: string, v: nat, category: string, now: real, fault: Fault)
    requires Floor(t, cache, c, v)
    ensures var (cache', r) := Get(cache, category, now, Answer(t, category, fault));
      && Floor(t, cache', c, v)
      && (category == c ==> r.LookupError? || (r.Found? && r.schema.version >= v))
  {
    QueriesAgree(t, c);
  }

  // So does every step of the registry, unless it deletes the category; a delete that is refused
  // does not.
  lemma ApplyKeepsFloor(t: Tables, cache: Cache, c: string, v: nat, op: Op)
    requires Floor(t, cache, c, v) && c in Apply(t, op).categories
    ensures Floor(Apply(t, op), cache, c, v)
  {
    ApplyKeepsInv(t, op);
    match op
    case Create(name, document, routing) =>
      CreateVersionEffect(t, name, document, routing);
      if name != c { CreateVersionElsewhere(t, name, document, routing, c); }
    case Delete(name) => DeleteEffect(t, name, c);
    case Insert(category, schema, e) =>
  }

  // From position m to position i the registry has the category.
  ghost predicate StaysIn(run: seq<Timed>, m: nat, i: nat, c: string)
    requires i <= |run|
  {
    forall k | m <= k <= i :: c in TablesAt(run, k).categories
  }

  // Main result: once c has been invalidated with the registry at version v or later, no
  // lookup of c goes back behind v, or misses it, as long as the category is there.
  lemma {:induction false} NeverBackAfterInvalidation(run: seq<Timed>, m: nat, i: nat, c: string, v: nat)
    requires m < i < |run| && run[m].event == Drop(c)
    requires Current(TablesAt(run, m), c) >= v && StaysIn(run, m, i, c)
    requires run[i].event.Ask? && run[i].event.category == c
    ensures Result(run, i).LookupError? || (Result(run, i).Found? && Result(run, i).schema.version >= v)
  {
    FloorHolds(run, m, i, c, v);
    GetAboveFloor(TablesAt(run, i), CacheAt(run, i), c, v, c, run[i].at, run[i].event.fault);
  }

  lemma {:induction false} FloorHolds(run: seq<Timed>, m: nat, i: nat, c: string, v: nat)
    requires m < i <= |run| && run[m].event == Drop(c)
    requires Current(TablesAt(run, m), c) >= v && StaysIn(run, m, i, c)
    ensures Floor(TablesAt(run, i), CacheAt(run, i), c, v)
    decreases i
  {
    var n := i - 1;
    if n == m {
      TablesInv(run, m);
      InvalidateSetsFloor(TablesAt(run, m), CacheAt(run, m), c, v);
    } else {
      FloorHolds(run, m, n, c, v);
      FloorStep(run, n, c, v);
    }
  }

  lemma FloorStep(run: seq<Timed>, n: nat, c: string, v: nat)
    requires n < |run| && Floor(TablesAt(run, n), CacheAt(run, n), c, v) && c in TablesAt(run, n + 1).categories
    ensures Floor(TablesAt(run, n + 1), CacheAt(run, n + 1), c, v)
  {
    var t, cache := TablesAt(run, n), CacheAt(run, n);
    match run[n].event
    case Registry(op) =>
      assert TablesAt(run, n + 1) == Apply(t, op) && CacheAt(run, n + 1) == cache;
      hide Floor; hide TablesAt; hide CacheAt;
      ApplyKeepsFloor(t, cache, c, v, op);
    case Ask(category, fault) =>
      assert TablesAt(run, n + 1) == t
        && CacheAt(run, n + 1) == Get(cache, category, run[n].at, Answer(t, category, fault)).0;
      hide Floor; hide TablesAt; hide CacheAt; hide Get; hide Answer;
      GetAboveFloor(t, cache, c, v, category, run[n].at, fault);
    case Drop(category) =>
      assert TablesAt(run, n + 1) == t && CacheAt(run, n + 1) == cache - {category};
      hide TablesAt; hide CacheAt; hide Inv; hide Current;
  }

  // A category that has events at position m keeps them: deletes of it are refused.
  lemma {:induction false} RoutedStays(run: seq<Timed>, m: nat, i: nat, c: string)
    requires m <= i <= |run| && c in TablesAt(run, m).categories
    requires HasEvents(TablesAt(run, m), TablesAt(run, m).categories[c])
    ensures KeepsNumbering(TablesAt(run, m), TablesAt(run, i), c)
    decreases i
  {
    if i == m {
      TablesInv(run, m);
    } else {
      RoutedStays(run, m, i - 1, c);
      var op := if run[i - 1].event.Registry? then Some(run[i - 1].event.op) else None;
      assert TablesAt(run, i) == if op.Some? then Apply(TablesAt(run, i - 1), op.value) else TablesAt(run, i - 1);
      hide *;
      if op.Some? { OpKeepsNumbering(TablesAt(run, m), TablesAt(run, i - 1), c, op.value); }
    }
  }

  // So for a category with events nothing has to be said about deletes.
  lemma RoutedNeverBack(run: seq<Timed>, m: nat, i: nat, c: string, v: nat)
    requires m < i < |run| && run[m].event == Drop(c)
    requires c in TablesAt(run, m).categories && Current(TablesAt(run, m), c) >= v
    requires HasEvents(TablesAt(run, m), TablesAt(run, m).categories[c])
    requires run[i].event.Ask? && run[i].event.category == c
    ensures Result(run, i).LookupError? || (Result(run, i).Found? && Result(run, i).schema.version >= v)
  {
    forall k | m <= k <= i ensures c in TablesAt(run, k).categories { RoutedStays(run, m, k, c); }
    NeverBackAfterInvalidation(run, m, i, c, v);
  }

  lemma {:induction false} TablesInv(run: seq<Timed>, n: nat)
    requires n <= |run|
    ensures Inv(TablesAt(run, n))
  {
    if n > 0 {
      TablesInv(run, n - 1);
      if run[n - 1].event.Registry? { ApplyKeepsInv(TablesAt(run, n - 1), run[n - 1].event.op); }
    }
  }
}
