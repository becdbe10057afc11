/**
 What ReplayCategory does when it runs alone and gets through without an error
 (internal/normalizer/worker.go:291-326).
 */
module ReplayContract {
  import opened Prelude
  import opened Envelopes
  import opened RegistryTables
  import opened RegistryClient
  import opened QuarantineTable
  import opened Normalizer
  import opened NormalizerRuns
  import opened Origins
  import opened Verdicts

  // What one call of Process does to the quarantine table and the history.
  lemma {:induction false} RunCallRows(s: Shared, c: Call, net: nat -> Answer, i: nat)
    requires c.pc.Start? || c.pc.Route? || c.pc.Insert?
    ensures var (s', c', _) := RunCall(s, c, net, i);
      && c'.env == c.env && s'.finished == s.finished + [c'] && s'.counts.replayed == s.counts.replayed
      && (c'.pc.Routed? ==> s'.rows == s.rows)
      && (c'.pc.Quarantined? ==> s'.rows == Upsert(s.rows, c.env, c'.pc.reason))
    decreases c.pc.Rank().0, c.pc.Rank().1
  {
    var (s1, c1) := CallStep(s, c, net(i));
    assert RunCall(s, c, net, i) == RunCall(s1, c1, net, i + 1);
    CallStepDescends(s, c, net(i));
    CallCounts(s, c, net(i));
    CallTouches(s, c, net(i));
    NextPc(s, c, net(i));
    if c1.pc.Returned() {
      assert RunCall(s1, c1, net, i + 1) == (s1, c1, i + 1);
      hide CallStep; hide RunCall; hide Upsert;
    } else if c1.pc.Record? {
      QuarantineRuns(s1, c1.env, c1.pc.reason, net, i + 1);
      hide CallStep; hide RunCall; hide Upsert;
      assert s1.finished == s.finished;
    } else {
      hide CallStep; hide RunCall; hide Upsert;
      RunCallRows(s1, c1, net, i + 1);
      assert s1.finished == s.finished;
    }
  }

  lemma NextPc(s: Shared, c: Call, a: Answer)
    requires c.pc.Start? || c.pc.Route? || c.pc.Insert?
    ensures var pc := CallStep(s, c, a).1.pc; pc.Route? || pc.Insert? || pc.Record? || pc.Routed? || pc.Failed?
  {
    hide Get; hide RegistryClient.Answer; hide Validate; hide ResolveForInsert; hide Destinations;
    hide RegistryTables.InsertEvent;
  }

  // A row after it has been replayed: marked, or still pending with one more attempt.
  ghost predicate Retried(row: QRow, row': QRow, ok: bool) {
    && row'.id == row.id && row'.raw == row.raw
    && if ok then row' == row.(status := Replayed)
       else row' == row.(attempts := row.attempts + 1, reason := row'.reason)
  }

  // ReplayOne on row k of the table, if it meets no error.
  lemma ReplayOneRow(ms: Messages, s: Shared, k: nat, net: nat -> Answer, i: nat)
    requires TableSound(ms, s.rows) && k < |s.rows|
    requires !ReplayOneAlone(s, s.rows[k], net, i).2
    ensures var (s', ok, _, _) := ReplayOneAlone(s, s.rows[k], net, i);
      && |s'.rows| == |s.rows| && TableSound(ms, s'.rows)
      && (forall j | 0 <= j < |s.rows| && j != k :: s'.rows[j] == s.rows[j])
      && Retried(s.rows[k], s'.rows[k], ok)
      && s'.counts.replayed == s.counts.replayed + (if ok then 1 else 0)
      && |s'.finished| == |s.finished| + 1 && s.finished == s'.finished[..|s.finished|]
      && Decode(s.rows[k].raw) == Some(s'.finished[|s.finished|].env) && (s'.finished[|s.finished|].pc.Routed? <==> ok)
  {
    var row := s.rows[k];
    var (s', ok, _, j) := ReplayOneAlone(s, row, net, i);
    assert Stored(ms, row);
    var e := Decode(row.raw).value;
    var (s1, c, i1) := RunCall(s, Call(e, Start), net, i);
    RunCallRows(s, Call(e, Start), net, i);
    RunCallReturns(s, Call(e, Start), net, i);
    hide RunCall; hide Decode; hide Encode; hide Published;
    IndexOfUnique(s.rows, k);
    if c.pc.Routed? {
      assert s'.rows == Mark(s.rows, row.id) by { Marked(s, row, net, i); }
      MarkSound(ms, s.rows, row.id);
    } else {
      assert c.pc.Quarantined? && s' == s1;
      UpsertSound(ms, s.rows, e, c.pc.reason);
    }
    hide TableSound;
  }

  // A replay that does not fail has had its mark.
  lemma Marked(s: Shared, row: QRow, net: nat -> Answer, i: nat)
    requires Decode(row.raw).Some?
    requires var (s1, c, _) := RunCall(s, Call(Decode(row.raw).value, Start), net, i); c.pc.Routed? && s1.rows == s.rows
    requires !ReplayOneAlone(s, row, net, i).2
    ensures ReplayOneAlone(s, row, net, i).0.rows == Mark(s.rows, row.id) && ReplayOneAlone(s, row, net, i).1
  {
    hide RunCall; hide Decode; hide Mark;
  }

  predicate IsReplayed(row: QRow) { row.status == Replayed }

  // The rows `left` are still as they were read.
  ghost predicate Waiting(rows: seq<QRow>, left: seq<QRow>) {
    && DistinctRows(left)
    && forall k | 0 <= k < |left| :: left[k] in rows && left[k].status == PendingReplay
  }

  // The table before and after the rows `left` have been replayed; their calls are the last to
  // finish, in order.
  ghost predicate AllRetried(s: Shared, s': Shared, left: seq<QRow>) {
    && |s'.rows| == |s.rows|
    && (forall j | 0 <= j < |s.rows| && s.rows[j] !in left :: s'.rows[j] == s.rows[j])
    && |s'.finished| == |s.finished| + |left| && s.finished == s'.finished[..|s.finished|]
    && (forall j, k | 0 <= j < |s.rows| && 0 <= k < |left| && s.rows[j] == left[k] ::
          Retried(s.rows[j], s'.rows[j], s'.finished[|s.finished| + k].pc.Routed?))
    && (forall k | 0 <= k < |left| :: Decode(left[k].raw) == Some(s'.finished[|s.finished| + k].env))
  }

  lemma ReplayEnds(s: Shared, trigger: Trigger, category: string, n: nat, net: nat -> Answer, i: nat)
    ensures RunReplay(s, trigger, category, NextRow([], n), net, i) == (s, Reporting(n, true), i)
  {
  }

  lemma {:induction false} ReplayRows(ms: Messages, s: Shared, trigger: Trigger, category: string, left: seq<QRow>,
                                      count: nat, net: nat -> Answer, i: nat)
    requires TableSound(ms, s.rows) && Waiting(s.rows, left)
    requires var p := RunReplay(s, trigger, category, NextRow(left, count), net, i).1; p.Reporting? && p.ok
    ensures var (s', p, _) := RunReplay(s, trigger, category, NextRow(left, count), net, i);
      && AllRetried(s, s', left) && TableSound(ms, s'.rows)
      && p.replayed - count == Count(s'.rows, IsReplayed) - Count(s.rows, IsReplayed)
      && p.replayed - count == s'.counts.replayed - s.counts.replayed
    decreases |left|
  {
    if left == [] {
      ReplayEnds(s, trigger, category, count, net, i);
      hide RunReplay; hide NextRow; hide TableSound; hide Decode;
    } else {
      var rest := left[1..];
      var k :| 0 <= k < |s.rows| && s.rows[k] == left[0];
      assert left == [s.rows[k]] + rest;
      ReplayOneRuns(s, trigger, category, s.rows[k], rest, count, net, i);
      hide RunReplay; hide NextRow; hide ReplayOneAlone; hide Decode;
      var (s1, ok, failed, j) := ReplayOneAlone(s, s.rows[k], net, i);
      ReplayOneRow(ms, s, k, net, i);
      assert Waiting(s1.rows, rest) by { StillWaiting(s.rows, s1.rows, k, left); }
      CountOneRow(s.rows, s1.rows, k, ok);
      hide TableSound; hide Waiting; hide AllRetried;
      var count1 := if ok then count + 1 else count;
      ReplayRows(ms, s1, trigger, category, rest, count1, net, j);
      var s' := RunReplay(s1, trigger, category, NextRow(rest, count1), net, j).0;
      RetriedFirst(s, s1, s', k, left, ok);
    }
  }

  lemma StillWaiting(rows: seq<QRow>, rows1: seq<QRow>, k: nat, left: seq<QRow>)
    requires Waiting(rows, left) && left != [] && k < |rows| == |rows1| && rows[k] == left[0]
    requires forall j | 0 <= j < |rows| && j != k :: rows1[j] == rows[j]
    ensures Waiting(rows1, left[1..])
  {
    var rest := left[1..];
    forall m | 0 <= m < |rest| ensures rest[m] in rows1 {
      var j :| 0 <= j < |rows| && rows[j] == left[m + 1];
      assert rows1[j] == rest[m];
    }
  }

  lemma CountOneRow(rows: seq<QRow>, rows1: seq<QRow>, k: nat, ok: bool)
    requires k < |rows| == |rows1| && rows[k].status == PendingReplay && Retried(rows[k], rows1[k], ok)
    requires forall j | 0 <= j < |rows| && j != k :: rows1[j] == rows[j]
    ensures Count(rows1, IsReplayed) == Count(rows, IsReplayed) + if ok then 1 else 0
  {
    assert rows1 == rows[k := rows1[k]];
    CountUpdate(rows, k, rows1[k], IsReplayed);
  }

  lemma RetriedFirst(s: Shared, s1: Shared, s': Shared, k: nat, left: seq<QRow>, ok: bool)
    requires left != [] && DistinctRows(left) && DistinctRows(s.rows) && k < |s.rows| == |s1.rows|
      && s.rows[k] == left[0]
    requires forall j | 0 <= j < |s.rows| && j != k :: s1.rows[j] == s.rows[j]
    requires Retried(s.rows[k], s1.rows[k], ok)
    requires |s1.finished| == |s.finished| + 1 && s.finished == s1.finished[..|s.finished|]
    requires Decode(s.rows[k].raw) == Some(s1.finished[|s.finished|].env) && s1.finished[|s.finished|].pc.Routed? == ok
    requires AllRetried(s1, s', left[1..])
    ensures AllRetried(s, s', left)
  {
    hide Decode;
    var rest := left[1..];
    assert forall r :: r in left <==> r == left[0] || r in rest;
    forall m | 0 <= m < |rest| ensures rest[m] != s1.rows[k] {
      assert left[m + 1].id != left[0].id;
    }
    assert s.finished == s'.finished[..|s.finished|];
  }

  // No row changes but those that wait for c.
  ghost predicate RowsRetried(rows: seq<QRow>, rows': seq<QRow>, c: string) {
    && |rows'| == |rows|
    && forall j | 0 <= j < |rows| && !Waits(rows[j], c) :: rows'[j] == rows[j]
  }

  // Process has run once for every row that waits, in order, on the very envelope that was
  // quarantined, and decided what becomes of the row: marked replayed if it was routed, else
  // still pending with one attempt more.
  ghost predicate CalledFor(ms: Messages, pending: seq<QRow>, s: Shared, s': Shared)
    requires |s'.rows| == |s.rows|
  {
    && |s'.finished| == |s.finished| + |pending| && s.finished == s'.finished[..|s.finished|]
    && (forall k | 0 <= k < |pending| :: Stores(ms, pending[k], s'.finished[|s.finished| + k].env))
    && forall j, k | 0 <= j < |s.rows| && 0 <= k < |pending| && s.rows[j] == pending[k] ::
         Retried(s.rows[j], s'.rows[j], s'.finished[|s.finished| + k].pc.Routed?)
  }

  lemma RowsAreRetried(ms: Messages, s: Shared, s': Shared, c: string)
    requires AllStored(ms, s.rows) && AllRetried(s, s', PendingOf(s.rows, c))
    ensures RowsRetried(s.rows, s'.rows, c)
  {
    var pending := PendingOf(s.rows, c);
    PendingMembers(s.rows, c);
    AllStoredWait(ms, s.rows, c);
    hide PendingOf; hide Decode; hide IsPending; hide Waits; hide AllStored; hide WaitingRows;
    assert forall j | 0 <= j < |s.rows| && !IsPending(s.rows[j], c) :: s.rows[j] !in pending;
  }

  lemma CallsAreFor(ms: Messages, s: Shared, s': Shared, pending: seq<QRow>)
    requires AllStored(ms, pending) && AllRetried(s, s', pending)
    ensures CalledFor(ms, pending, s, s')
  {
    hide Decode; hide Encode; hide Published; hide AllStored; hide Retried;
    forall k | 0 <= k < |pending| ensures Stores(ms, pending[k], s'.finished[|s.finished| + k].env) {
      StoredAt(ms, pending, k);
    }
  }

  lemma StoredAt(ms: Messages, rows: seq<QRow>, k: nat)
    requires AllStored(ms, rows) && k < |rows|
    ensures Stored(ms, rows[k])
  {
  }

  // Main result: an error-free replay of category c does that, and returns the number of rows it
  // moved to replayed.
  lemma ReplayCategoryContract(ms: Messages, s: Shared, trigger: Trigger, c: string, net: nat -> Answer, i: nat, n: nat)
    requires TableSound(ms, s.rows)
    requires RunReplay(s, trigger, c, Querying, net, i).1 == Reporting(n, true)
    ensures var s' := RunReplay(s, trigger, c, Querying, net, i).0;
      && RowsRetried(s.rows, s'.rows, c)
      && WaitingRows(PendingOf(s.rows, c), s.rows, c) && CalledFor(ms, PendingOf(s.rows, c), s, s')
      && n == Count(s'.rows, IsReplayed) - Count(s.rows, IsReplayed) == s'.counts.replayed - s.counts.replayed
  {
    var pending := PendingOf(s.rows, c);
    ReplayQueries(s, trigger, c, net, i);
    PendingMembers(s.rows, c);
    PendingDistinct(s.rows, c);
    hide RunReplay; hide NextRow; hide PendingOf; hide Decode; hide Encode; hide CategoryText; hide Published;
    hide RowsRetried; hide CalledFor; hide Count;
    assert Waiting(s.rows, pending) by {
      assert forall k | 0 <= k < |pending| :: pending[k] in pending;
    }
    TableSoundMeans(ms, s.rows);
    PendingStored(ms, s.rows, c);
    AllStoredWait(ms, s.rows, c);
    hide WaitingRows; hide IsPending; hide Waits; hide TableSound; hide AllRetried; hide Waiting;
    hide AllStored;
    ReplayRows(ms, s, trigger, c, pending, 0, net, i + 1);
    var s' := RunReplay(s, trigger, c, Querying, net, i).0;
    RowsAreRetried(ms, s, s', c);
    CallsAreFor(ms, s, s', pending);
  }

  // In particular it does so from every state that a run can reach.
  lemma ReachableReplay(lokiSet: bool, actions: seq<Action>, trigger: Trigger, c: string, net: nat -> Answer, i: nat,
                        n: nat)
    requires RunReplay(Run(lokiSet, actions).s, trigger, c, Querying, net, i).1 == Reporting(n, true)
    ensures var st := Run(lokiSet, actions);
      var s' := RunReplay(st.s, trigger, c, Querying, net, i).0;
      && RowsRetried(st.s.rows, s'.rows, c)
      && WaitingRows(PendingOf(st.s.rows, c), st.s.rows, c)
      && CalledFor(st.messages, PendingOf(st.s.rows, c), st.s, s')
      && n == Count(s'.rows, IsReplayed) - Count(st.s.rows, IsReplayed) == s'.counts.replayed - st.s.counts.replayed
  {
    var st := Run(lokiSet, actions);
    EveryRunSound(lokiSet, actions);
    hide Run; hide RunReplay; hide AllStored; hide DistinctRows; hide RowsRetried; hide CalledFor; hide Count;
    hide PendingOf; hide WaitingRows;
    assert TableSound(st.messages, st.s.rows);
    ReplayCategoryContract(st.messages, st.s, trigger, c, net, i, n);
  }

  // --- Replays by hand ---

  lemma FetchRuns(s: Shared, id: string, net: nat -> Answer, i: nat)
    ensures RunReplay(s, ByHand, "", Fetching(id), net, i) ==
      var k := IndexOf(s.rows, id);
      if net(i).outcome.Ok? && k < |s.rows| && s.rows[k].status == PendingReplay
      then RunReplay(s, ByHand, "", NextRow([s.rows[k]], 0), net, i + 1)
      else (s, Reporting(0, false), i + 1)
  {
    hide CallStep; hide NextRow; hide IndexOf;
  }

  lemma ProbeRuns(s: Shared, category: string, net: nat -> Answer, i: nat)
    ensures RunReplay(s, ByHand, category, Probing, net, i) ==
      var (cache, r) := Get(s.cache, category, net(i).now, RegistryClient.Answer(s.tables, category, net(i).fault));
      if r.Found? then RunReplay(s.(cache := cache), ByHand, category, Querying, net, i + 1)
      else (s.(cache := cache), Reporting(0, false), i + 1)
  {
    hide CallStep; hide NextRow; hide Get; hide RegistryClient.Answer;
  }

  // Main result: replaying one event by hand reports an error, and changes nothing, if there is no
  // row under its id or its row has been replayed. Otherwise, unless it meets an error, it processes
  // the envelope that the row stores, marks the row if that was routed, and changes no other row;
  // and when nothing goes wrong it meets an error only if that call fails.
  lemma HandOneContract(ms: Messages, s: Shared, id: string, net: nat -> Answer, i: nat)
    requires TableSound(ms, s.rows)
    ensures var (s', p, _) := RunReplay(s, ByHand, "", Fetching(id), net, i);
      && ((forall k | 0 <= k < |s.rows| && s.rows[k].id == id :: s.rows[k].status == Replayed)
          ==> s' == s && p == Reporting(0, false))
      && (p.Reporting? && p.ok ==>
            forall k | 0 <= k < |s.rows| && s.rows[k].id == id && s.rows[k].status == PendingReplay ::
              OneReplayed(s, s', k, p.replayed))
      && (NoTrouble(net) && (exists k | 0 <= k < |s.rows| :: s.rows[k].id == id && s.rows[k].status == PendingReplay)
          ==> p.Reporting? && (p.ok || LastFailed(s, s')))
  {
    assert NoTrouble(net) ==> net(i).outcome == Ok;
    FetchRuns(s, id, net, i);
    TableSoundMeans(ms, s.rows);
    var k := IndexOf(s.rows, id);
    forall j | 0 <= j < |s.rows| && s.rows[j].id == id ensures j == k { IndexOfUnique(s.rows, j); }
    hide RunReplay; hide IndexOf; hide TableSound; hide DistinctRows; hide AllStored; hide OneReplayed; hide NextRow;
    if k < |s.rows| && s.rows[k].status == PendingReplay && net(i).outcome.Ok? { RowByHand(ms, s, k, net, i + 1); }
  }

  lemma RowByHand(ms: Messages, s: Shared, k: nat, net: nat -> Answer, i: nat)
    requires TableSound(ms, s.rows) && k < |s.rows|
    ensures var (s', p, _) := RunReplay(s, ByHand, "", NextRow([s.rows[k]], 0), net, i);
      && (p.Reporting? && p.ok ==> OneReplayed(s, s', k, p.replayed))
      && (NoTrouble(net) ==> p.Reporting? && (p.ok || LastFailed(s, s')))
  {
    if NoTrouble(net) { OneFailsOnlyInCall(ms, s, k, net, i); }
    ReplayOneRuns(s, ByHand, "", s.rows[k], [], 0, net, i);
    assert [s.rows[k]] + [] == [s.rows[k]];
    var (s1, ok, failed, j) := ReplayOneAlone(s, s.rows[k], net, i);
    hide RunReplay; hide ReplayOneAlone; hide Decode; hide TableSound; hide Retried; hide NextRow; hide NoTrouble;
    if !failed {
      ReplayOneRow(ms, s, k, net, i);
      ReplayEnds(s1, ByHand, "", if ok then 1 else 0, net, j);
    }
  }

  // The last call that returned failed.
  ghost predicate LastFailed(s: Shared, s': Shared) {
    |s'.finished| == |s.finished| + 1 && s'.finished[|s.finished|].pc.Failed?
  }

  lemma OneFailsOnlyInCall(ms: Messages, s: Shared, k: nat, net: nat -> Answer, i: nat)
    requires TableSound(ms, s.rows) && k < |s.rows| && NoTrouble(net)
    ensures var (s', _, failed, _) := ReplayOneAlone(s, s.rows[k], net, i); failed ==> LastFailed(s, s')
  {
    TableSoundMeans(ms, s.rows);
    assert Stored(ms, s.rows[k]);
    var e := Decode(s.rows[k].raw).value;
    RunCallRows(s, Call(e, Start), net, i);
    var (_, c, j) := RunCall(s, Call(e, Start), net, i);
    assert net(j).outcome == Ok;
    hide RunCall; hide Decode; hide TableSound; hide NoTrouble;
  }

  // Row k has been tried again: one call on the envelope it stores, and no other row changes.
  ghost predicate OneReplayed(s: Shared, s': Shared, k: nat, replayed: nat)
    requires k < |s.rows|
  {
    && |s'.rows| == |s.rows| && |s'.finished| == |s.finished| + 1 && s.finished == s'.finished[..|s.finished|]
    && (forall j | 0 <= j < |s.rows| && j != k :: s'.rows[j] == s.rows[j])
    && var c := s'.finished[|s.finished|];
       && Decode(s.rows[k].raw) == Some(c.env)
       && Retried(s.rows[k], s'.rows[k], c.pc.Routed?)
       && replayed == if c.pc.Routed? then 1 else 0
  }

  // Main result: replaying a category by hand reports an error, and replays nothing, if its lookup
  // finds no schema. Otherwise it is the same replay as for an approval, without the invalidation.
  lemma HandCategoryContract(s: Shared, category: string, net: nat -> Answer, i: nat)
    requires Inv(s.tables) && net(i).fault == NoFault
    ensures var (s', p, j) := RunReplay(s, ByHand, category, Probing, net, i);
      && (NoneJudges(s, category, net(i).now) ==> s' == s && p == Reporting(0, false))
      && (!NoneJudges(s, category, net(i).now) ==>
            exists cache :: (s', p, j) == RunReplay(s.(cache := cache), ByHand, category, Querying, net, i + 1))
  {
    ProbeRuns(s, category, net, i);
    LookUpFinds(s, category, net(i));
    var (cache, r) := Get(s.cache, category, net(i).now, RegistryClient.Answer(s.tables, category, net(i).fault));
    assert r.SchemaNotFound? ==> cache == s.cache by { hide RegistryClient.Answer; }
    hide Get; hide RegistryClient.Answer; hide RunReplay; hide Inv;
    if !NoneJudges(s, category, net(i).now) {
      SomeJudges(s, category, net(i).now);
      hide NoneJudges; hide Judges;
      var schema :| Judges(s, category, net(i).now, schema);
      assert r == Found(schema);
    }
  }

  // --- Acknowledging approvals ---

  lemma StepKeepsAcks(s: Shared, trigger: Trigger, category: string, phase: ReplayPhase, a: Answer)
    requires !phase.Reporting? && !phase.Closed? && (phase.Calling? ==> !phase.call.pc.Returned())
    ensures var (s', p) := ReplayStep(s, trigger, category, phase, a);
      s'.approvalsAcked == s.approvalsAcked && !p.Closed? && (p.Calling? ==> !p.call.pc.Returned())
  {
    if phase.Calling? { CallTouchesRows(s, phase.call, a); }
    hide CallStep; hide Decode; hide PendingOf; hide IndexOf; hide Mark; hide Bump; hide Get;
    hide RegistryClient.Answer;
  }

  lemma {:induction false} ReplayKeepsAcks(s: Shared, trigger: Trigger, category: string, phase: ReplayPhase,
                                           net: nat -> Answer, i: nat)
    requires !phase.Closed? && (phase.Calling? ==> !phase.call.pc.Returned())
    ensures var (s', p, _) := RunReplay(s, trigger, category, phase, net, i);
      p.Reporting? && s'.approvalsAcked == s.approvalsAcked
    decreases Rank(phase).0, Rank(phase).1, Rank(phase).2, Rank(phase).3, Rank(phase).4
  {
    if !phase.Reporting? {
      ReplayStepDescends(s, trigger, category, phase, net(i));
      StepKeepsAcks(s, trigger, category, phase, net(i));
      var (s1, p1) := ReplayStep(s, trigger, category, phase, net(i));
      hide ReplayStep;
      ReplayKeepsAcks(s1, trigger, category, p1, net, i + 1);
    }
  }

  // Main result: an approval is acknowledged if and only if its replay met no error and the
  // acknowledgement takes effect; one without a category is acknowledged and has no other effect.
  lemma ApprovalAckedIff(s: Shared, m: nat, category: string, net: nat -> Answer)
    ensures var (s1, p, j) :=
        RunReplay(s, ByApproval(m), category, if category == "" then Ignoring else Invalidating, net, 0);
      var s' := ReplayStep(s1, ByApproval(m), category, p, net(j)).0;
      && p.Reporting?
      && s' == s1.(approvalsAcked := if p.ok && net(j).outcome.TookEffect() then s.approvalsAcked + {m}
                                     else s.approvalsAcked)
      && (category == "" ==> p.ok && s1 == s)
  {
    ReplayKeepsAcks(s, ByApproval(m), category, if category == "" then Ignoring else Invalidating, net, 0);
    if category == "" { ReplayIgnores(s, ByApproval(m), category, net); }
    hide RunReplay; hide CallStep; hide NextRow; hide Mark; hide Bump; hide PendingOf; hide IndexOf; hide Get;
  }
}
