/**
 How far a replay has got, while other tasks run: of the rows it fetched it has been through a
 prefix, with one returned call for each row, in order; and it has been through all of them if it
 reports success.
 */
module ReplayProgress {
  import opened Prelude
  import opened Envelopes
  import opened RegistryTables
  import opened QuarantineTable
  import opened Normalizer
  import opened NormalizerRuns
  import opened Origins
  import opened NoLoss
  import opened ReplayForward

  // Judged by version `floor` or later, if there is one.
  ghost predicate Judged(pc: Pc, floor: Option<nat>) {
    floor.Some? ==> PcForward(pc, floor.value)
  }

  ghost predicate MarkedIn(rows: seq<QRow>, id: string) {
    exists j | 0 <= j < |rows| :: rows[j].id == id && rows[j].status == Replayed
  }

  // Finished call f is one on the envelope that the row stores, made after the first `base` calls.
  ghost predicate CallFor(finished: seq<Call>, base: nat, row: QRow, f: nat, floor: Option<nat>) {
    && base <= f < |finished|
    && Decode(row.raw) == Some(finished[f].env) && Judged(finished[f].pc, floor)
  }

  // Call f has routed the row's event, and the row is marked; or it has quarantined it again.
  ghost predicate DealtWith(s: Shared, base: nat, row: QRow, f: nat, floor: Option<nat>) {
    && CallFor(s.finished, base, row, f, floor)
    && (s.finished[f].pc.Quarantined? || (s.finished[f].pc.Routed? && MarkedIn(s.rows, row.id)))
  }

  // The calls that dealt with the rows `done`, one each, in order.
  ghost predicate Worked(s: Shared, base: nat, done: seq<QRow>, at: seq<nat>, floor: Option<nat>) {
    && |at| == |done|
    && (forall k, l | 0 <= k < l < |at| :: at[k] < at[l])
    && (forall k | 0 <= k < |at| :: DealtWith(s, base, done[k], at[k], floor))
  }

  // How many of these calls have routed.
  ghost function RoutedOf(finished: seq<Call>, at: seq<nat>): nat {
    if at == [] then 0 else
      var f := at[|at| - 1];
      RoutedOf(finished, at[..|at| - 1]) + if f < |finished| && finished[f].pc.Routed? then 1 else 0
  }

  // A later call on the row, which has routed it or, if `mayFail`, failed.
  ghost predicate LastCall(s: Shared, base: nat, row: QRow, at: seq<nat>, floor: Option<nat>, mayFail: bool) {
    exists f: nat :: CallFor(s.finished, base, row, f, floor) && After(at, f)
                && (s.finished[f].pc.Routed? || (mayFail && s.finished[f].pc.Failed?))
  }

  ghost predicate After(at: seq<nat>, f: nat) {
    forall k | 0 <= k < |at| :: at[k] < f
  }

  ghost predicate AllThere(rows: seq<QRow>, pending: seq<QRow>) {
    forall k | 0 <= k < |pending| :: HasRow(rows, pending[k].id)
  }

  // A replay of the rows `pending` is through with the first |at| of them. It counts those that
  // were routed. If it reports an error, the call on the next row failed, or routed it and the mark
  // failed; if it reports success, there is no next row.
  ghost predicate ProgressAt(s: Shared, phase: ReplayPhase, base: nat, pending: seq<QRow>, at: seq<nat>,
                             floor: Option<nat>)
  {
    && AllThere(s.rows, pending)
    && |at| <= |pending| && Worked(s, base, pending[..|at|], at, floor)
    && match phase
       case Calling(row, _, left, n) =>
         n == RoutedOf(s.finished, at) && pending[|at|..] == [row] + left
       case Marking(row, left, n) =>
         n == RoutedOf(s.finished, at) && pending[|at|..] == [row] + left && LastCall(s, base, row, at, floor, false)
       case Reporting(n, ok) => n == RoutedOf(s.finished, at) && Ends(s, base, pending, at, floor, ok)
       case Closed(n, ok) => n == RoutedOf(s.finished, at) && Ends(s, base, pending, at, floor, ok)
       case _ => false
  }

  ghost predicate Ends(s: Shared, base: nat, pending: seq<QRow>, at: seq<nat>, floor: Option<nat>, ok: bool)
    requires |at| <= |pending|
  {
    if ok then |at| == |pending|
    else |at| < |pending| && LastCall(s, base, pending[|at|], at, floor, true)
  }

  ghost predicate Progress(s: Shared, phase: ReplayPhase, base: nat, pending: seq<QRow>, floor: Option<nat>) {
    exists at :: ProgressAt(s, phase, base, pending, at, floor)
  }

  // --- What others do ---

  // Calls stay finished, rows stay and stay marked.
  ghost predicate Later(s: Shared, s': Shared) {
    && |s.finished| <= |s'.finished| && s'.finished[..|s.finished|] == s.finished
    && (forall id | MarkedIn(s.rows, id) :: MarkedIn(s'.rows, id))
    && (forall id | HasRow(s.rows, id) :: HasRow(s'.rows, id))
  }

  lemma WorkedLater(s: Shared, s': Shared, base: nat, done: seq<QRow>, at: seq<nat>, floor: Option<nat>)
    requires Worked(s, base, done, at, floor) && Later(s, s')
    ensures Worked(s', base, done, at, floor)
  {
    hide MarkedIn; hide Decode; hide Judged;
    forall k | 0 <= k < |at| ensures DealtWith(s', base, done[k], at[k], floor) {
      assert DealtWith(s, base, done[k], at[k], floor);
      assert s'.finished[at[k]] == s'.finished[..|s.finished|][at[k]];
    }
  }

  lemma {:induction false} RoutedOfLater(finished: seq<Call>, finished': seq<Call>, at: seq<nat>)
    requires |finished| <= |finished'| && finished'[..|finished|] == finished
    requires forall k | 0 <= k < |at| :: at[k] < |finished|
    ensures RoutedOf(finished', at) == RoutedOf(finished, at)
  {
    if at != [] {
      RoutedOfLater(finished, finished', at[..|at| - 1]);
      var f := at[|at| - 1];
      assert finished'[f] == finished'[..|finished|][f];
    }
  }

  lemma LastCallLater(s: Shared, s': Shared, base: nat, row: QRow, at: seq<nat>, floor: Option<nat>, mayFail: bool)
    requires LastCall(s, base, row, at, floor, mayFail) && Later(s, s')
    ensures LastCall(s', base, row, at, floor, mayFail)
  {
    hide Decode; hide Judged; hide After; hide MarkedIn;
    var f: nat :| CallFor(s.finished, base, row, f, floor) && After(at, f)
             && (s.finished[f].pc.Routed? || (mayFail && s.finished[f].pc.Failed?));
    assert s'.finished[f] == s'.finished[..|s.finished|][f];
    assert CallFor(s'.finished, base, row, f, floor);
  }

  lemma ProgressLater(s: Shared, s': Shared, phase: ReplayPhase, base: nat, pending: seq<QRow>, at: seq<nat>,
                      floor: Option<nat>)
    requires ProgressAt(s, phase, base, pending, at, floor) && Later(s, s')
    ensures ProgressAt(s', phase, base, pending, at, floor)
  {
    WorkedLater(s, s', base, pending[..|at|], at, floor);
    assert forall k | 0 <= k < |at| :: DealtWith(s, base, pending[..|at|][k], at[k], floor);
    RoutedOfLater(s.finished, s'.finished, at);
    assert AllThere(s'.rows, pending) by { hide HasRow; hide MarkedIn; }
    hide Worked; hide Later; hide RoutedOf; hide DealtWith; hide LastCall; hide AllThere;
    match phase
    case Marking(row, _, _) => LastCallLater(s, s', base, row, at, floor, false);
    case Reporting(_, ok) => if !ok { LastCallLater(s, s', base, pending[|at|], at, floor, true); }
    case Closed(_, ok) => if !ok { LastCallLater(s, s', base, pending[|at|], at, floor, true); }
    case _ =>
  }

  // --- The replay's own steps ---

  lemma NextRowProgress(ms: Messages, s: Shared, left: seq<QRow>, n: nat, base: nat, pending: seq<QRow>, at: seq<nat>,
                        floor: Option<nat>)
    requires |at| <= |pending| && Worked(s, base, pending[..|at|], at, floor) && pending[|at|..] == left
    requires AllThere(s.rows, pending) && n == RoutedOf(s.finished, at) && AllStored(ms, left)
    ensures ProgressAt(s, NextRow(left, n), base, pending, at, floor)
  {
    hide Worked; hide RoutedOf; hide Decode; hide LastCall; hide AllThere;
    if left == [] {
      assert |at| == |pending|;
    } else {
      assert Stored(ms, left[0]);
      assert [left[0]] + left[1..] == left;
    }
    hide AllStored; hide Stored;
  }

  // One row more has been dealt with.
  lemma WorkedMore(s: Shared, base: nat, pending: seq<QRow>, at: seq<nat>, f: nat, floor: Option<nat>)
    requires |at| < |pending| && Worked(s, base, pending[..|at|], at, floor) && After(at, f)
    requires DealtWith(s, base, pending[|at|], f, floor)
    ensures Worked(s, base, pending[..|at| + 1], at + [f], floor)
  {
    hide DealtWith;
    forall k | 0 <= k < |at| + 1 ensures DealtWith(s, base, pending[..|at| + 1][k], (at + [f])[k], floor) {
      if k < |at| { assert DealtWith(s, base, pending[..|at|][k], at[k], floor); }
    }
  }

  lemma RoutedMore(finished: seq<Call>, at: seq<nat>, f: nat)
    requires f < |finished|
    ensures RoutedOf(finished, at + [f]) == RoutedOf(finished, at) + if finished[f].pc.Routed? then 1 else 0
  {
    assert (at + [f])[..|at|] == at;
  }

  // A call of the replay has returned.
  lemma ReturnedProgress(ms: Messages, s: Shared, s': Shared, row: QRow, left: seq<QRow>, n: nat, c: Call, base: nat,
                         pending: seq<QRow>, at: seq<nat>, floor: Option<nat>, phase: ReplayPhase)
    requires ProgressAt(s', Calling(row, Call(c.env, Start), left, n), base, pending, at, floor)
    requires After(at, |s.finished|) && base <= |s.finished| && s'.finished == s.finished + [c]
    requires Decode(row.raw) == Some(c.env) && Judged(c.pc, floor) && AllStored(ms, left)
    requires phase == if c.pc.Routed? then Marking(row, left, n)
                      else if c.pc.Quarantined? then NextRow(left, n) else Reporting(n, false)
    requires c.pc.Returned()
    ensures Progress(s', phase, base, pending, floor)
  {
    var f := |s.finished|;
    assert s'.finished[f] == c && pending[|at|] == row;
    assert CallFor(s'.finished, base, row, f, floor) && After(at, f);
    hide Judged; hide Decode; hide AllStored; hide HasRow;
    if c.pc.Quarantined? {
      assert DealtWith(s', base, row, f, floor);
      WorkedMore(s', base, pending, at, f, floor);
      RoutedMore(s'.finished, at, f);
      hide Worked; hide RoutedOf; hide DealtWith; hide CallFor; hide AllThere;
      assert pending[|at + [f]|..] == left;
      NextRowProgress(ms, s', left, n, base, pending, at + [f], floor);
      assert ProgressAt(s', phase, base, pending, at + [f], floor);
    } else {
      hide Worked; hide RoutedOf; hide CallFor; hide AllThere;
      assert LastCall(s', base, row, at, floor, !c.pc.Routed?);
      hide LastCall;
      assert ProgressAt(s', phase, base, pending, at, floor);
    }
  }

  lemma CallsEarlier(s: Shared, phase: ReplayPhase, base: nat, pending: seq<QRow>, at: seq<nat>, floor: Option<nat>)
    requires ProgressAt(s, phase, base, pending, at, floor)
    ensures After(at, |s.finished|)
  {
    assert forall k | 0 <= k < |at| :: DealtWith(s, base, pending[..|at|][k], at[k], floor);
  }

  // What a step of its call makes of the replay.
  function AfterCallStep(row: QRow, left: seq<QRow>, n: nat, c: Call): ReplayPhase {
    if c.pc.Routed? then Marking(row, left, n)
    else if c.pc.Quarantined? then NextRow(left, n)
    else if c.pc.Failed? then Reporting(n, false)
    else Calling(row, c, left, n)
  }

  lemma AfterCalling(ms: Messages, s: Shared, s': Shared, row: QRow, left: seq<QRow>, n: nat, call: Call, c: Call,
                     base: nat, pending: seq<QRow>, at: seq<nat>, floor: Option<nat>)
    requires ProgressAt(s, Calling(row, call, left, n), base, pending, at, floor) && Later(s, s')
    requires base <= |s.finished| && s'.finished == s.finished + if c.pc.Returned() then [c] else []
    requires Decode(row.raw) == Some(c.env) && Judged(c.pc, floor) && AllStored(ms, left)
    ensures Progress(s', AfterCallStep(row, left, n, c), base, pending, floor)
  {
    hide Later; hide Worked; hide DealtWith; hide NextRow; hide Judged; hide RoutedOf; hide AllStored;
    hide AllThere; hide Decode; hide LastCall;
    ProgressLater(s, s', Calling(row, call, left, n), base, pending, at, floor);
    CallsEarlier(s, Calling(row, call, left, n), base, pending, at, floor);
    if c.pc.Returned() {
      ReturnedProgress(ms, s, s', row, left, n, c, base, pending, at, floor, AfterCallStep(row, left, n, c));
    } else {
      assert ProgressAt(s', Calling(row, c, left, n), base, pending, at, floor);
    }
  }

  lemma CallingProgress(ms: Messages, s: Shared, t: Task, a: Answer, base: nat, pending: seq<QRow>, floor: Option<nat>)
    requires t.Replay? && t.phase.Calling? && TaskFits(ms, t) && Progress(s, t.phase, base, pending, floor)
    requires Judged(CallStep(s, t.phase.call, a).1.pc, floor)
    requires base <= |s.finished| && Later(s, TaskStep(s, t, a).0)
    ensures var (s', t') := TaskStep(s, t, a); t'.Replay? && Progress(s', t'.phase, base, pending, floor)
  {
    hide ProgressAt; hide TaskStep; hide CallStep; hide Later; hide NextRow; hide Judged; hide AllStored;
    hide Stored; hide Decode; hide Encode; hide Published; hide AfterCallStep;
    var Calling(row, call, left, n) := t.phase;
    var at :| ProgressAt(s, t.phase, base, pending, at, floor);
    var s', c := TaskStep(s, t, a).0, CallStep(s, call, a).1;
    CallingStep(s, t, a);
    CallCounts(s, call, a);
    assert AfterStep(t, c).phase == AfterCallStep(row, left, n, c) by { SamePhase(t, c); }
    hide AfterStep;
    AfterCalling(ms, s, s', row, left, n, call, c, base, pending, at, floor);
  }

  lemma SamePhase(t: Task, c: Call)
    requires t.Replay? && t.phase.Calling?
    ensures AfterStep(t, c).Replay?
    ensures AfterStep(t, c).phase == AfterCallStep(t.phase.row, t.phase.left, t.phase.replayed, c)
  {
    hide NextRow;
  }

  lemma MarkMarks(rows: seq<QRow>, id: string)
    requires HasRow(rows, id)
    ensures MarkedIn(Mark(rows, id), id)
  {
    var j := IndexOf(rows, id);
    assert Mark(rows, id)[j].id == id && Mark(rows, id)[j].status == Replayed;
  }

  // The row has been marked.
  lemma MarkedProgress(ms: Messages, s: Shared, row: QRow, left: seq<QRow>, n: nat, base: nat, pending: seq<QRow>,
                       at: seq<nat>, floor: Option<nat>)
    requires ProgressAt(s, Marking(row, left, n), base, pending, at, floor)
    requires MarkedIn(s.rows, row.id) && AllStored(ms, left)
    ensures Progress(s, NextRow(left, n + 1), base, pending, floor)
  {
    hide Worked; hide NextRow; hide Judged; hide AllStored; hide AllThere; hide Decode; hide MarkedIn; hide RoutedOf;
    var f: nat :| CallFor(s.finished, base, row, f, floor) && After(at, f) && s.finished[f].pc.Routed?;
    assert pending[|at|] == row && DealtWith(s, base, row, f, floor);
    WorkedMore(s, base, pending, at, f, floor);
    RoutedMore(s.finished, at, f);
    hide DealtWith; hide CallFor; hide LastCall; hide After;
    assert pending[|at + [f]|..] == left;
    NextRowProgress(ms, s, left, n + 1, base, pending, at + [f], floor);
  }

  // The update that marks the row is reported as failed.
  lemma UnmarkedProgress(s: Shared, row: QRow, left: seq<QRow>, n: nat, base: nat, pending: seq<QRow>, at: seq<nat>,
                         floor: Option<nat>)
    requires ProgressAt(s, Marking(row, left, n), base, pending, at, floor)
    ensures Progress(s, Reporting(n, false), base, pending, floor)
  {
    hide Worked; hide AllThere; hide RoutedOf; hide CallFor; hide After;
    assert pending[|at|] == row;
    assert ProgressAt(s, Reporting(n, false), base, pending, at, floor);
  }

  lemma MarkingStep(s: Shared, t: Task, a: Answer)
    requires t.Replay? && t.phase.Marking?
    ensures var Marking(row, left, n) := t.phase;
      var (s', t') := TaskStep(s, t, a);
      && (a.outcome.Ok? ==> s'.rows == Mark(s.rows, row.id))
      && t'.Replay? && t'.phase == if a.outcome.Ok? then NextRow(left, n + 1) else Reporting(n, false)
  {
    hide NextRow; hide Mark;
  }

  lemma MarkingThere(s: Shared, row: QRow, left: seq<QRow>, n: nat, base: nat, pending: seq<QRow>, at: seq<nat>,
                     floor: Option<nat>)
    requires ProgressAt(s, Marking(row, left, n), base, pending, at, floor)
    ensures HasRow(s.rows, row.id)
  {
    hide Worked; hide LastCall; hide RoutedOf; hide HasRow;
    assert pending[|at|] == row;
  }

  lemma AfterMarking(ms: Messages, s: Shared, s': Shared, row: QRow, left: seq<QRow>, n: nat, ok: bool, base: nat,
                     pending: seq<QRow>, at: seq<nat>, floor: Option<nat>)
    requires ProgressAt(s, Marking(row, left, n), base, pending, at, floor) && Later(s, s') && AllStored(ms, left)
    requires ok ==> s'.rows == Mark(s.rows, row.id)
    ensures Progress(s', if ok then NextRow(left, n + 1) else Reporting(n, false), base, pending, floor)
  {
    hide *;
    ProgressLater(s, s', Marking(row, left, n), base, pending, at, floor);
    if ok {
      MarkingThere(s, row, left, n, base, pending, at, floor);
      MarkMarks(s.rows, row.id);
      MarkedProgress(ms, s', row, left, n, base, pending, at, floor);
    } else {
      UnmarkedProgress(s', row, left, n, base, pending, at, floor);
    }
  }

  lemma MarkingProgress(ms: Messages, s: Shared, t: Task, a: Answer, base: nat, pending: seq<QRow>, floor: Option<nat>)
    requires t.Replay? && t.phase.Marking? && TaskFits(ms, t) && Progress(s, t.phase, base, pending, floor)
    requires Later(s, TaskStep(s, t, a).0)
    ensures var (s', t') := TaskStep(s, t, a); t'.Replay? && Progress(s', t'.phase, base, pending, floor)
  {
    hide ProgressAt; hide TaskStep; hide NextRow; hide AllStored; hide Stored; hide Later; hide Mark;
    var Marking(row, left, n) := t.phase;
    var at :| ProgressAt(s, t.phase, base, pending, at, floor);
    MarkingStep(s, t, a);
    AfterMarking(ms, s, TaskStep(s, t, a).0, row, left, n, a.outcome.Ok?, base, pending, at, floor);
  }

  lemma EndedProgress(s: Shared, t: Task, a: Answer, base: nat, pending: seq<QRow>, floor: Option<nat>)
    requires t.Replay? && (t.phase.Reporting? || t.phase.Closed?) && Progress(s, t.phase, base, pending, floor)
    requires Later(s, TaskStep(s, t, a).0)
    ensures var (s', t') := TaskStep(s, t, a); t'.Replay? && Progress(s', t'.phase, base, pending, floor)
  {
    hide Later; hide Worked; hide Ends; hide RoutedOf; hide AllThere;
    var at :| ProgressAt(s, t.phase, base, pending, at, floor);
    var s' := TaskStep(s, t, a).0;
    ProgressLater(s, s', t.phase, base, pending, at, floor);
    assert ProgressAt(s', Closed(t.phase.replayed, t.phase.ok), base, pending, at, floor);
    hide ProgressAt;
  }

  lemma OwnProgress(ms: Messages, s: Shared, t: Task, a: Answer, base: nat, pending: seq<QRow>, floor: Option<nat>)
    requires t.Replay? && TaskFits(ms, t) && Progress(s, t.phase, base, pending, floor)
    requires t.phase.Calling? ==> Judged(CallStep(s, t.phase.call, a).1.pc, floor)
    requires base <= |s.finished| && Later(s, TaskStep(s, t, a).0)
    ensures var (s', t') := TaskStep(s, t, a); t'.Replay? && Progress(s', t'.phase, base, pending, floor)
  {
    assert exists at :: ProgressAt(s, t.phase, base, pending, at, floor);
    hide TaskStep; hide CallStep; hide Later; hide Judged; hide Worked; hide Ends; hide AllThere; hide TaskFits;
    match t.phase
    case Calling(_, _, _, _) => CallingProgress(ms, s, t, a, base, pending, floor);
    case Marking(_, _, _) => MarkingProgress(ms, s, t, a, base, pending, floor);
    case Reporting(_, _) => EndedProgress(s, t, a, base, pending, floor);
    case Closed(_, _) => EndedProgress(s, t, a, base, pending, floor);
    case _ =>
  }

  // --- Runs ---

  lemma TaskFinished(s: Shared, t: Task, a: Answer)
    requires CallOf(t).Some? ==> !CallOf(t).value.pc.Returned()
    ensures var s' := TaskStep(s, t, a).0;
      |s.finished| <= |s'.finished| && s'.finished[..|s.finished|] == s.finished
  {
    hide TaskStep; hide CallStep; hide AfterStep;
    if CallOf(t).Some? {
      CallingStep(s, t, a);
      CallCounts(s, CallOf(t).value, a);
    } else {
      IdleStep(s, t, a);
    }
  }

  lemma NextFinished(st: Sys, a: Action)
    requires Sound(st)
    ensures var st' := Next(st, a);
      |st.s.finished| <= |st'.s.finished| && st'.s.finished[..|st.s.finished|] == st.s.finished
  {
    hide TaskStep; hide Apply; hide NewId;
    if a.Act? && a.task < |st.tasks| {
      assert TaskFits(st.messages, st.tasks[a.task]);
      hide Sound; hide AllStored; hide Stored; hide Stores;
      TaskFinished(st.s, st.tasks[a.task], a.answer);
    }
  }

  lemma RowsLater(rows: seq<QRow>, rows': seq<QRow>, finished: seq<Call>)
    requires Marked(rows, rows', finished)
    ensures forall id | MarkedIn(rows, id) :: MarkedIn(rows', id)
    ensures forall id | HasRow(rows, id) :: HasRow(rows', id)
  {
    hide RoutedUnder;
    forall id | MarkedIn(rows, id) ensures MarkedIn(rows', id) {
      var j :| 0 <= j < |rows| && rows[j].id == id && rows[j].status == Replayed;
      assert rows'[j].id == id && rows'[j].status == Replayed;
    }
    forall id | HasRow(rows, id) ensures HasRow(rows', id) {
      assert rows'[IndexOf(rows, id)].id == id;
    }
  }

  lemma NextLater(st: Sys, a: Action)
    requires Backed(st)
    ensures Later(st.s, Next(st, a).s)
  {
    NextBacked(st, a);
    assert Sound(st);
    hide Backed;
    NextFinished(st, a);
    RowsLater(st.s.rows, Next(st, a).s.rows, Next(st, a).s.finished);
    hide Next; hide MarkedIn; hide HasRow;
  }

  ghost function At(lokiSet: bool, actions: seq<Action>, n: nat): Sys
    requires n <= |actions|
  {
    Run(lokiSet, actions[..n])
  }

  lemma AtNext(lokiSet: bool, actions: seq<Action>, n: nat)
    requires n < |actions|
    ensures At(lokiSet, actions, n + 1) == Next(At(lokiSet, actions, n), actions[n])
  {
    assert actions[..n + 1][..n] == actions[..n];
  }

  lemma AtBacked(lokiSet: bool, actions: seq<Action>, n: nat)
    requires n <= |actions|
    ensures Backed(At(lokiSet, actions, n))
  {
    EveryRunBacked(lokiSet, actions[..n]);
  }

  predicate Fetches(st: Sys, a: Action, i: nat) {
    && a.Act? && a.task == i && a.answer.outcome.Ok?
    && i < |st.tasks| && st.tasks[i].Replay? && st.tasks[i].phase.Querying?
  }

  // At step q replay i fetches the rows that wait for its category.
  ghost predicate FetchedAt(lokiSet: bool, actions: seq<Action>, q: nat, i: nat) {
    q < |actions| && Fetches(At(lokiSet, actions, q), actions[q], i)
  }

  ghost function Fetched(lokiSet: bool, actions: seq<Action>, q: nat, i: nat): seq<QRow>
    requires FetchedAt(lokiSet, actions, q, i)
  {
    var st := At(lokiSet, actions, q);
    PendingOf(st.s.rows, st.tasks[i].category)
  }

  // If step k is one of a call that replay i is in, the call is judged by version `floor` or later.
  ghost predicate JudgedAt(lokiSet: bool, actions: seq<Action>, k: nat, i: nat, floor: Option<nat>)
    requires k < |actions|
  {
    JudgedStep(At(lokiSet, actions, k), actions[k], i, floor)
  }

  ghost predicate JudgedStep(st: Sys, a: Action, i: nat, floor: Option<nat>) {
    a.Act? && a.task == i && i < |st.tasks| && st.tasks[i].Replay? && st.tasks[i].phase.Calling?
    ==> Judged(CallStep(st.s, st.tasks[i].phase.call, a.answer).1.pc, floor)
  }

  // The replay has just fetched its rows.
  lemma JustFetched(st: Sys, i: nat, a: Answer, floor: Option<nat>)
    requires Sound(st) && i < |st.tasks| && st.tasks[i].Replay? && st.tasks[i].phase.Querying? && a.outcome.Ok?
    ensures var st' := ActOf(st, i, a);
      && st'.tasks[i].Replay? && st'.s == st.s
      && Progress(st'.s, st'.tasks[i].phase, |st.s.finished|, PendingOf(st.s.rows, st.tasks[i].category), floor)
  {
    var c := st.tasks[i].category;
    var pending := PendingOf(st.s.rows, c);
    var st' := ActOf(st, i, a);
    assert st'.s == st.s && st'.tasks[i].phase == NextRow(pending, 0);
    PendingStored(st.messages, st.s.rows, c);
    PendingMembers(st.s.rows, c);
    forall k | 0 <= k < |pending| ensures HasRow(st.s.rows, pending[k].id) {
      assert pending[k] in pending;
    }
    hide PendingOf; hide NextRow; hide ActOf; hide Sound; hide HasRow; hide AllStored;
    assert pending[0..] == pending;
    assert Worked(st.s, |st.s.finished|, [], [], floor);
    NextRowProgress(st.messages, st.s, pending, 0, |st.s.finished|, pending, [], floor);
  }

  lemma ActProgress(st: Sys, i: nat, a: Answer, base: nat, pending: seq<QRow>, floor: Option<nat>)
    requires Sound(st) && i < |st.tasks| && st.tasks[i].Replay? && base <= |st.s.finished|
    requires Progress(st.s, st.tasks[i].phase, base, pending, floor) && Later(st.s, ActOf(st, i, a).s)
    requires st.tasks[i].phase.Calling? ==> Judged(CallStep(st.s, st.tasks[i].phase.call, a).1.pc, floor)
    ensures var st' := ActOf(st, i, a);
      st'.tasks[i].Replay? && Progress(st'.s, st'.tasks[i].phase, base, pending, floor)
  {
    assert TaskFits(st.messages, st.tasks[i]);
    hide Sound; hide Progress; hide Later; hide TaskStep; hide CallStep; hide TaskFits; hide Judged;
    OwnProgress(st.messages, st.s, st.tasks[i], a, base, pending, floor);
  }

  // Another action leaves the task as it is.
  lemma OthersProgress(st: Sys, i: nat, a: Action, base: nat, pending: seq<QRow>, floor: Option<nat>)
    requires i < |st.tasks| && st.tasks[i].Replay? && !(a.Act? && a.task == i)
    requires Progress(st.s, st.tasks[i].phase, base, pending, floor) && Later(st.s, Next(st, a).s)
    ensures var st' := Next(st, a);
      && |st.tasks| <= |st'.tasks| && st'.tasks[i] == st.tasks[i]
      && Progress(st'.s, st'.tasks[i].phase, base, pending, floor)
  {
    var at :| ProgressAt(st.s, st.tasks[i].phase, base, pending, at, floor);
    assert |st.tasks| <= |Next(st, a).tasks| && Next(st, a).tasks[i] == st.tasks[i] by { hide TaskStep; hide Apply; }
    hide Next; hide Later; hide ProgressAt;
    ProgressLater(st.s, Next(st, a).s, st.tasks[i].phase, base, pending, at, floor);
  }

  // Where replay i stands, given that it fetched its rows at step q.
  ghost predicate Stands(st: Sys, i: nat, base: nat, pending: seq<QRow>, floor: Option<nat>) {
    && i < |st.tasks| && st.tasks[i].Replay? && base <= |st.s.finished|
    && Progress(st.s, st.tasks[i].phase, base, pending, floor)
  }

  // Main result: from its fetch on, a replay has been through a prefix of the rows it fetched, with
  // one returned call for each, in order, and reports success only when it has been through all.
  lemma EveryReplayProgresses(lokiSet: bool, actions: seq<Action>, q: nat, n: nat, i: nat, floor: Option<nat>)
    requires FetchedAt(lokiSet, actions, q, i) && q < n <= |actions|
    requires forall k | q < k < n :: JudgedAt(lokiSet, actions, k, i, floor)
    ensures var st := At(lokiSet, actions, q);
      && Stands(At(lokiSet, actions, n), i, |st.s.finished|, Fetched(lokiSet, actions, q, i), floor)
      && WaitingRows(Fetched(lokiSet, actions, q, i), st.s.rows, st.tasks[i].category)
  {
    FetchWaits(lokiSet, actions, q, At(lokiSet, actions, q).tasks[i].category);
    hide WaitingRows; hide AllStored; hide At; hide Stands; hide JudgedAt;
    ReplayStands(lokiSet, actions, q, n, i, floor);
  }

  lemma {:induction false} ReplayStands(lokiSet: bool, actions: seq<Action>, q: nat, n: nat, i: nat, floor: Option<nat>)
    requires FetchedAt(lokiSet, actions, q, i) && q < n <= |actions|
    requires forall k | q < k < n :: JudgedAt(lokiSet, actions, k, i, floor)
    ensures var st := At(lokiSet, actions, q);
      Stands(At(lokiSet, actions, n), i, |st.s.finished|, Fetched(lokiSet, actions, q, i), floor)
    decreases n
  {
    hide At; hide Stands; hide Backed; hide Next; hide JudgedStep;
    var m := n - 1;
    var st := At(lokiSet, actions, m);
    AtNext(lokiSet, actions, m);
    AtBacked(lokiSet, actions, m);
    if m == q {
      FetchStands(st, i, actions[m].answer, floor);
    } else {
      ReplayStands(lokiSet, actions, q, m, i, floor);
      var base := |At(lokiSet, actions, q).s.finished|;
      assert JudgedAt(lokiSet, actions, m, i, floor);
      StepProgress(st, actions[m], i, base, Fetched(lokiSet, actions, q, i), floor);
    }
  }

  lemma FetchStands(st: Sys, i: nat, a: Answer, floor: Option<nat>)
    requires Backed(st) && i < |st.tasks| && st.tasks[i].Replay? && st.tasks[i].phase.Querying? && a.outcome.Ok?
    ensures Stands(Next(st, Act(i, a)), i, |st.s.finished|, PendingOf(st.s.rows, st.tasks[i].category), floor)
  {
    assert Sound(st);
    hide Backed; hide Sound; hide Next; hide ActOf; hide Progress;
    NextIsAct(st, i, a);
    JustFetched(st, i, a, floor);
  }

  lemma StepProgress(st: Sys, last: Action, i: nat, base: nat, pending: seq<QRow>, floor: Option<nat>)
    requires Backed(st) && Stands(st, i, base, pending, floor) && JudgedStep(st, last, i, floor)
    ensures Stands(Next(st, last), i, base, pending, floor)
  {
    assert Sound(st);
    hide Next; hide Sound; hide Backed; hide Progress; hide Judged; hide MarkedIn; hide HasRow; hide CallStep;
    hide TaskStep;
    NextLater(st, last);
    if last.Act? && last.task == i {
      NextIsAct(st, i, last.answer);
      ActProgress(st, i, last.answer, base, pending, floor);
    } else {
      OthersProgress(st, i, last, base, pending, floor);
    }
  }

  lemma NextIsAct(st: Sys, i: nat, a: Answer)
    requires i < |st.tasks|
    ensures Next(st, Act(i, a)) == ActOf(st, i, a) && |ActOf(st, i, a).tasks| == |st.tasks|
  {
    hide TaskStep;
  }

  // --- The replay for an approval ---

  lemma {:induction false} TriggerStays(lokiSet: bool, actions: seq<Action>, q: nat, n: nat, i: nat)
    requires q <= n <= |actions| && i < |At(lokiSet, actions, q).tasks| && At(lokiSet, actions, q).tasks[i].Replay?
    ensures var t, st := At(lokiSet, actions, q).tasks[i], At(lokiSet, actions, n);
      && i < |st.tasks| && st.tasks[i].Replay?
      && st.tasks[i].trigger == t.trigger && st.tasks[i].category == t.category
    decreases n
  {
    hide At; hide TaskStep; hide Apply; hide NewId;
    if q < n {
      TriggerStays(lokiSet, actions, q, n - 1, i);
      AtNext(lokiSet, actions, n - 1);
      var st, a := At(lokiSet, actions, n - 1), actions[n - 1];
      if a.Act? && a.task == i { SameTrigger(st.s, st.tasks[i], a.answer); }
    }
  }

  lemma {:induction false} ApprovalsGrow(lokiSet: bool, actions: seq<Action>, q: nat, n: nat)
    requires q <= n <= |actions|
    ensures |At(lokiSet, actions, q).approvals| <= |At(lokiSet, actions, n).approvals|
    decreases n
  {
    hide At; hide TaskStep; hide Apply; hide NewId;
    if q < n {
      ApprovalsGrow(lokiSet, actions, q, n - 1);
      AtNext(lokiSet, actions, n - 1);
    }
  }

  // Task i at position k handles the approval announced at step n.
  ghost predicate Handles(lokiSet: bool, actions: seq<Action>, n: nat, k: nat, i: nat)
    requires n <= |actions| && k <= |actions|
  {
    var st := At(lokiSet, actions, k);
    i < |st.tasks| && st.tasks[i].Replay? && st.tasks[i].trigger == ByApproval(|At(lokiSet, actions, n).approvals|)
  }

  // So it does only after the announcement.
  lemma HandledAfter(lokiSet: bool, actions: seq<Action>, n: nat, k: nat, i: nat)
    requires n < |actions| && k <= |actions| && Handles(lokiSet, actions, n, k, i)
    ensures n < k
  {
    EveryRunTriggers(lokiSet, actions[..k]);
    assert TriggersKnown(At(lokiSet, actions, k));
    hide At; hide Inv;
    if k <= n { ApprovalsGrow(lokiSet, actions, k, n); }
  }

  // Its calls are judged by the announced version or a later one.
  lemma HandlerJudged(lokiSet: bool, actions: seq<Action>, n: nat, c: string, v: nat, k: nat, i: nat)
    requires AnnouncedForGood(lokiSet, actions, n, c, v) && k < |actions| && Handles(lokiSet, actions, n, k, i)
    ensures JudgedAt(lokiSet, actions, k, i, Some(v))
  {
    HandledAfter(lokiSet, actions, n, k, i);
    GoodForPrefix(lokiSet, actions, n, c, v, k);
    var st := At(lokiSet, actions, k);
    if actions[k].Act? && actions[k].task == i && st.tasks[i].phase.Calling? {
      assert HandlerCalls(Run(lokiSet, actions[..k]), i, |Run(lokiSet, actions[..k][..n]).approvals|);
      hide Run; hide AnnouncedForGood; hide HandlerCalls; hide PcForward; hide ActOf; hide CallStep; hide HasReported;
      ReplayNeverGoesBack(lokiSet, actions[..k], n, c, v, i, actions[k].answer);
    }
  }

  // Main result: the replay for an announced version has been through a prefix of the rows that
  // waited for the category when it fetched them. Each was routed and marked, or quarantined again,
  // under that version or a later one. A replay that reports success has been through all of them;
  // one that reports an error stopped at the row after the prefix.
  lemma ApprovalProgresses(lokiSet: bool, actions: seq<Action>, n: nat, c: string, v: nat, q: nat, i: nat)
    requires AnnouncedForGood(lokiSet, actions, n, c, v)
    requires FetchedAt(lokiSet, actions, q, i) && Handles(lokiSet, actions, n, q, i)
    ensures Stands(Run(lokiSet, actions), i, |At(lokiSet, actions, q).s.finished|, Fetched(lokiSet, actions, q, i),
                   Some(v))
    ensures var st := At(lokiSet, actions, q);
      WaitingRows(Fetched(lokiSet, actions, q, i), st.s.rows, st.tasks[i].category)
  {
    hide WaitingRows;
    assert actions[..|actions|] == actions;
    assert At(lokiSet, actions, |actions|) == Run(lokiSet, actions);
    hide Run; hide At; hide AnnouncedForGood; hide JudgedAt; hide Stands;
    forall k | q < k < |actions| ensures JudgedAt(lokiSet, actions, k, i, Some(v)) {
      TriggerStays(lokiSet, actions, q, k, i);
      HandlerJudged(lokiSet, actions, n, c, v, k, i);
    }
    EveryReplayProgresses(lokiSet, actions, q, |actions|, i, Some(v));
  }

  // --- Acknowledged approvals ---

  // A replay for an approval that has fetched its rows, and met no error.
  predicate Underway(t: Task) {
    && t.Replay? && t.trigger.ByApproval? && t.category != ""
    && (t.phase.Calling? || t.phase.Marking? || t.phase.Bumping?
        || ((t.phase.Reporting? || t.phase.Closed?) && t.phase.ok))
  }

  // An approval with a category is neither ignored nor for one row.
  predicate Lawful(t: Task) {
    t.Replay? && t.trigger.ByApproval? && t.category != "" ==> !t.phase.Ignoring? && !t.phase.Fetching?
  }

  lemma StepUnderway(s: Shared, t: Task, a: Answer)
    requires Lawful(t)
    ensures var t' := TaskStep(s, t, a).1;
      && Lawful(t')
      && (Underway(t') ==> Underway(t) || (t.Replay? && t.phase.Querying? && a.outcome.Ok?))
  {
    hide CallStep; hide PendingOf; hide IndexOf; hide Mark; hide Bump; hide RegistryClient.Get;
    hide RegistryClient.Answer; hide Decode;
  }

  lemma NextUnderway(st: Sys, a: Action, i: nat)
    requires i < |Next(st, a).tasks| && (i < |st.tasks| ==> Lawful(st.tasks[i]))
    ensures var t' := Next(st, a).tasks[i];
      && Lawful(t')
      && (Underway(t') ==> i < |st.tasks| && (Underway(st.tasks[i]) || Fetches(st, a, i)))
  {
    hide TaskStep; hide Apply; hide NewId;
    if a.Act? && a.task == i && i < |st.tasks| { StepUnderway(st.s, st.tasks[i], a.answer); }
  }

  lemma {:induction false} UnderwayFetched(lokiSet: bool, actions: seq<Action>, n: nat, i: nat)
    requires n <= |actions| && i < |At(lokiSet, actions, n).tasks|
    ensures Lawful(At(lokiSet, actions, n).tasks[i])
    ensures Underway(At(lokiSet, actions, n).tasks[i]) ==> exists q: nat :: q < n && FetchedAt(lokiSet, actions, q, i)
  {
    if n > 0 {
      AtNext(lokiSet, actions, n - 1);
      var st, a := At(lokiSet, actions, n - 1), actions[n - 1];
      hide At; hide Next; hide Lawful; hide Underway; hide Fetches;
      if i < |st.tasks| { UnderwayFetched(lokiSet, actions, n - 1, i); }
      NextUnderway(st, a, i);
      assert Fetches(st, a, i) ==> FetchedAt(lokiSet, actions, n - 1, i);
    }
  }

  // Every row that waits for c has been dealt with.
  ghost predicate AllWaitingDealtWith(s: Shared, base: nat, rows: seq<QRow>, c: string, floor: Option<nat>) {
    forall j | 0 <= j < |rows| && Waits(rows[j], c) :: exists f: nat :: DealtWith(s, base, rows[j], f, floor)
  }

  lemma WaitingMeansPending(ms: Messages, s: Shared, base: nat, rows: seq<QRow>, c: string, floor: Option<nat>)
    requires AllStored(ms, rows) && AllDealtWith(s, base, PendingOf(rows, c), floor)
    ensures AllWaitingDealtWith(s, base, rows, c, floor)
  {
    var pending := PendingOf(rows, c);
    var at :| Worked(s, base, pending, at, floor);
    AllStoredWait(ms, rows, c);
    PendingMembers(rows, c);
    hide AllStored; hide PendingOf; hide DealtWith; hide IsPending; hide Waits; hide WaitingRows;
    forall j | 0 <= j < |rows| && Waits(rows[j], c) ensures exists f: nat :: DealtWith(s, base, rows[j], f, floor) {
      assert rows[j] in pending;
      var k :| 0 <= k < |pending| && pending[k] == rows[j];
      assert DealtWith(s, base, pending[k], at[k], floor);
    }
  }

  // Every row of `pending` has been dealt with, by a call of its own.
  ghost predicate AllDealtWith(s: Shared, base: nat, pending: seq<QRow>, floor: Option<nat>) {
    exists at :: Worked(s, base, pending, at, floor)
  }

  // Main result: behind an acknowledged announcement of version v there is a replay, begun after
  // the announcement, that has dealt with every row that waited for the category when it fetched
  // them: each was routed and marked, or quarantined again, under version v or later.
  lemma AckedReplayed(lokiSet: bool, actions: seq<Action>, n: nat, c: string, v: nat) returns (q: nat, i: nat)
    requires AnnouncedForGood(lokiSet, actions, n, c, v)
    requires |At(lokiSet, actions, n).approvals| in Run(lokiSet, actions).s.approvalsAcked
    ensures FetchedAt(lokiSet, actions, q, i) && n < q && Handles(lokiSet, actions, n, q, i)
    ensures var st := At(lokiSet, actions, q);
      && WaitingRows(PendingOf(st.s.rows, c), st.s.rows, c)
      && AllDealtWith(Run(lokiSet, actions).s, |st.s.finished|, PendingOf(st.s.rows, c), Some(v))
      && AllWaitingDealtWith(Run(lokiSet, actions).s, |st.s.finished|, st.s.rows, c, Some(v))
  {
    var st := Run(lokiSet, actions);
    var m := |At(lokiSet, actions, n).approvals|;
    assert actions[..|actions|] == actions;
    assert At(lokiSet, actions, |actions|) == st;
    AckedMeansCompleted(lokiSet, actions);
    EveryRunForward(lokiSet, actions, n, c, v);
    i :| 0 <= i < |st.tasks| && st.tasks[i].Replay? && st.tasks[i].trigger == ByApproval(m)
         && st.tasks[i].phase.Closed? && st.tasks[i].phase.ok;
    assert TaskForward(st.s, st.tasks[i], m, c, v) && c != "";
    hide Run; hide At; hide AnnouncedForGood; hide Forward;
    UnderwayFetched(lokiSet, actions, |actions|, i);
    q :| 0 <= q < |actions| && FetchedAt(lokiSet, actions, q, i);
    TriggerStays(lokiSet, actions, q, |actions|, i);
    HandledAfter(lokiSet, actions, n, q, i);
    ApprovalProgresses(lokiSet, actions, n, c, v, q, i);
    ClosedMeansAll(st, i, |At(lokiSet, actions, q).s.finished|, Fetched(lokiSet, actions, q, i), Some(v));
    FetchWaits(lokiSet, actions, q, c);
    WaitingMeansPending(At(lokiSet, actions, q).messages, st.s, |At(lokiSet, actions, q).s.finished|,
                        At(lokiSet, actions, q).s.rows, c, Some(v));
  }

  lemma FetchWaits(lokiSet: bool, actions: seq<Action>, q: nat, c: string)
    requires q <= |actions|
    ensures var st := At(lokiSet, actions, q);
      AllStored(st.messages, st.s.rows) && WaitingRows(PendingOf(st.s.rows, c), st.s.rows, c)
  {
    EveryRunSound(lokiSet, actions[..q]);
    var st := At(lokiSet, actions, q);
    assert AllStored(st.messages, st.s.rows);
    hide At; hide Run; hide Sound;
    AllStoredWait(st.messages, st.s.rows, c);
  }

  lemma ClosedMeansAll(st: Sys, i: nat, base: nat, pending: seq<QRow>, floor: Option<nat>)
    requires Stands(st, i, base, pending, floor) && st.tasks[i].phase.Closed? && st.tasks[i].phase.ok
    ensures AllDealtWith(st.s, base, pending, floor)
  {
    var at :| ProgressAt(st.s, st.tasks[i].phase, base, pending, at, floor);
    assert pending[..|at|] == pending;
    hide Worked;
  }
}
