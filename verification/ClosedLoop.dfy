/**
 The registry and the normalizer together: reviews create and announce versions, the normalizer
 gets the announcements and replays, and both work on the same tables.

 A run of the loop is a run of the one and a run of the other, so what holds of each holds here;
 and what the normalizer's runs take for granted about announced versions is what reviews do.
 */
module ClosedLoop {
  import opened Prelude
  import opened RegistryTables
  import opened QuarantineTable
  import opened Normalizer
  import opened NormalizerRuns
  import opened Origins
  import opened ReplayForward
  import opened ReplayProgress
  import R = Review
  import P = ReviewProtocol

  datatype Loop = Loop(review: R.Sys, norm: Sys)

  // The actions of either side, except those by which it stands in for the other.
  datatype Step = Reviewing(a: R.Action) | Normalizing(n: Action)

  function ApprovalOf(e: R.Announcement): Approval {
    Approval(e.category, e.version)
  }

  // The approval messages that a step of the registry adds.
  function NewApprovals(before: seq<R.Announcement>, after: seq<R.Announcement>): seq<Approval> {
    if |after| == |before| + 1 then [ApprovalOf(after[|before|])] else []
  }

  function LoopNext(l: Loop, step: Step): Loop {
    match step
    case Reviewing(a) =>
      if a.RouteEvent? then l else
        var review := R.Next(l.review, a);
        Loop(review, l.norm.(s := l.norm.s.(tables := review.shared.tables),
                             approvals := l.norm.approvals
                               + NewApprovals(l.review.shared.announced, review.shared.announced)))
    case Normalizing(n) =>
      if n.Create? || n.Delete? || n.Announce? then l else
        var norm := Next(l.norm, n);
        Loop(l.review.(shared := l.review.shared.(tables := norm.s.tables)), norm)
  }

  function LoopRun(lokiSet: bool, steps: seq<Step>): Loop {
    if steps == [] then Loop(R.INITIAL, Initial(lokiSet))
    else LoopNext(LoopRun(lokiSet, steps[..|steps| - 1]), steps[|steps| - 1])
  }

  // --- Each side's view of a step ---

  // What the normalizer sees of a step of the registry.
  function SeenByNormalizer(review: R.Sys, a: R.Action): seq<Action> {
    match a
    case AdminCreate(category, document, routing) => [Action.Create(category, document, routing)]
    case AdminDelete(category) => [Action.Delete(category)]
    case Advance(i, o) =>
      if i >= |review.reviews| || !o.TookEffect() then []
      else
        (match review.reviews[i].pc
         case Creating(category, document, routing) => [Action.Create(category, document, routing)]
         case Publishing(category, version, _) => [Announce(Approval(category, version))]
         case _ => [])
    case _ => []
  }

  // What the registry sees of a step of the normalizer.
  function SeenByRegistry(norm: Sys, n: Action): seq<R.Action> {
    if n.Act? && n.task < |norm.tasks| && CallOf(norm.tasks[n.task]).Some? then
      var c := CallOf(norm.tasks[n.task]).value;
      if c.pc.Insert? && n.answer.outcome.TookEffect() then [R.RouteEvent(c.pc.categoryId, c.pc.schemaId, c.env)]
      else []
    else []
  }

  function RegistrySees(l: Loop, step: Step): seq<R.Action> {
    match step
    case Reviewing(a) => if a.RouteEvent? then [] else [a]
    case Normalizing(n) => if n.Create? || n.Delete? || n.Announce? then [] else SeenByRegistry(l.norm, n)
  }

  function NormalizerSees(l: Loop, step: Step): seq<Action> {
    match step
    case Reviewing(a) => if a.RouteEvent? then [] else SeenByNormalizer(l.review, a)
    case Normalizing(n) => if n.Create? || n.Delete? || n.Announce? then [] else [n]
  }

  function ReviewPart(lokiSet: bool, steps: seq<Step>): seq<R.Action> {
    if steps == [] then [] else
      var init := steps[..|steps| - 1];
      ReviewPart(lokiSet, init) + RegistrySees(LoopRun(lokiSet, init), steps[|steps| - 1])
  }

  function NormalizerPart(lokiSet: bool, steps: seq<Step>): seq<Action> {
    if steps == [] then [] else
      var init := steps[..|steps| - 1];
      NormalizerPart(lokiSet, init) + NormalizerSees(LoopRun(lokiSet, init), steps[|steps| - 1])
  }

  // --- The two parts run to the same place ---

  // After an action that is seen, or none.
  function Seen(norm: Sys, ns: seq<Action>): Sys {
    if |ns| == 1 then Next(norm, ns[0]) else norm
  }

  function SeenReview(review: R.Sys, rs: seq<R.Action>): R.Sys {
    if |rs| == 1 then R.Next(review, rs[0]) else review
  }

  function WithReview(norm: Sys, before: R.Sys, after: R.Sys): Sys {
    norm.(s := norm.s.(tables := after.shared.tables),
          approvals := norm.approvals + NewApprovals(before.shared.announced, after.shared.announced))
  }

  lemma AdvanceSeen(s: R.Shared, r: R.Review, o: Outcome)
    ensures var s' := R.Step(s, r, o).0;
      && s'.tables == (if r.pc.Creating? && o.TookEffect()
                       then Apply(s.tables, Op.Create(r.pc.category, r.pc.document, r.pc.routing)) else s.tables)
      && NewApprovals(s.announced, s'.announced)
         == if r.pc.Publishing? && o.TookEffect() then [Approval(r.pc.category, r.pc.version)] else []
  {
    hide CreateVersion; hide HasSchema;
  }

  // A step of the registry changes the tables, and announces, as the normalizer sees it.
  lemma ReviewStepSeen(review: R.Sys, norm: Sys, a: R.Action)
    requires norm.s.tables == review.shared.tables && !a.RouteEvent?
    ensures WithReview(norm, review, R.Next(review, a)) == Seen(norm, SeenByNormalizer(review, a))
  {
    hide CreateVersion; hide DeleteCategory; hide R.Step; hide NewId; hide TaskStep;
    if a.Advance? && a.review < |review.reviews| { AdvanceSeen(review.shared, review.reviews[a.review], a.outcome); }
    assert norm.approvals + [] == norm.approvals;
  }

  lemma CallInserts(s: Shared, c: Call, a: Answer)
    requires !c.pc.Returned()
    ensures CallStep(s, c, a).0.tables ==
      if c.pc.Insert? && a.outcome.TookEffect() then Apply(s.tables, Op.Insert(c.pc.categoryId, c.pc.schemaId, c.env))
      else s.tables
  {
    hide RegistryClient.Get; hide RegistryClient.Answer; hide Validate; hide QuarantineTable.Upsert;
    hide ResolveForInsert; hide Destinations; hide RegistryTables.InsertEvent;
  }

  lemma TaskInserts(s: Shared, t: Task, a: Answer)
    requires CallOf(t).Some? ==> !CallOf(t).value.pc.Returned()
    ensures TaskStep(s, t, a).0.tables ==
      if CallOf(t).Some? && CallOf(t).value.pc.Insert? && a.outcome.TookEffect() then
        var c := CallOf(t).value;
        Apply(s.tables, Op.Insert(c.pc.categoryId, c.pc.schemaId, c.env))
      else s.tables
  {
    hide TaskStep; hide CallStep; hide Apply; hide AfterStep;
    if CallOf(t).Some? {
      CallingStep(s, t, a);
      CallInserts(s, CallOf(t).value, a);
    } else {
      IdleStep(s, t, a);
    }
  }

  // A step of the normalizer changes the tables as the registry sees it.
  lemma NormalizerStepSeen(review: R.Sys, norm: Sys, n: Action)
    requires Sound(norm) && norm.s.tables == review.shared.tables && !n.Create? && !n.Delete?
    ensures review.(shared := review.shared.(tables := Next(norm, n).s.tables))
      == SeenReview(review, SeenByRegistry(norm, n))
  {
    hide TaskStep; hide NewId; hide RegistryTables.InsertEvent;
    if n.Act? && n.task < |norm.tasks| {
      assert TaskFits(norm.messages, norm.tasks[n.task]);
      hide Sound;
      TaskInserts(norm.s, norm.tasks[n.task], n.answer);
    }
    hide Sound;
  }

  lemma RunSeen(lokiSet: bool, actions: seq<Action>, ns: seq<Action>)
    requires |ns| <= 1
    ensures Run(lokiSet, actions + ns) == Seen(Run(lokiSet, actions), ns)
  {
    if |ns| == 1 {
      assert (actions + ns)[..|actions|] == actions;
    } else {
      assert actions + ns == actions;
    }
  }

  lemma RunSeenReview(actions: seq<R.Action>, rs: seq<R.Action>)
    requires |rs| <= 1
    ensures R.Run(actions + rs) == SeenReview(R.Run(actions), rs)
  {
    if |rs| == 1 {
      assert (actions + rs)[..|actions|] == actions;
    } else {
      assert actions + rs == actions;
    }
  }

  // One step of the loop is at most one step of either side.
  lemma StepIsBoth(l: Loop, step: Step)
    requires Sound(l.norm) && l.norm.s.tables == l.review.shared.tables
    ensures var l' := LoopNext(l, step);
      && l'.review == SeenReview(l.review, RegistrySees(l, step))
      && l'.norm == Seen(l.norm, NormalizerSees(l, step))
      && l'.norm.s.tables == l'.review.shared.tables
    ensures |RegistrySees(l, step)| <= 1 && |NormalizerSees(l, step)| <= 1
  {
    match step
    case Reviewing(a) =>
      if !a.RouteEvent? { ReviewStepSeen(l.review, l.norm, a); }
      hide Next; hide R.Next; hide Sound;
    case Normalizing(n) =>
      if !n.Create? && !n.Delete? && !n.Announce? { NormalizerStepSeen(l.review, l.norm, n); }
      hide Next; hide R.Next; hide Sound;
  }

  // Main result: a run of the loop is a run of the reviews and a run of the normalizer on the same
  // tables.
  lemma {:induction false} LoopIsBoth(lokiSet: bool, steps: seq<Step>)
    ensures var l := LoopRun(lokiSet, steps);
      && l.review == R.Run(ReviewPart(lokiSet, steps))
      && l.norm == Run(lokiSet, NormalizerPart(lokiSet, steps))
      && l.norm.s.tables == l.review.shared.tables
  {
    if steps != [] {
      var init, last := steps[..|steps| - 1], steps[|steps| - 1];
      LoopIsBoth(lokiSet, init);
      EveryRunSound(lokiSet, NormalizerPart(lokiSet, init));
      var l := LoopRun(lokiSet, init);
      hide Run; hide R.Run; hide Sound; hide LoopNext; hide RegistrySees; hide NormalizerSees; hide Seen;
      hide SeenReview;
      StepIsBoth(l, last);
      RunSeen(lokiSet, NormalizerPart(lokiSet, init), NormalizerSees(l, last));
      RunSeenReview(ReviewPart(lokiSet, init), RegistrySees(l, last));
    }
  }

  // --- Approved versions ---

  // At step n review j announces version v of c, whose row is `schema`.
  ghost predicate Announces(lokiSet: bool, steps: seq<Step>, n: nat, c: string, v: nat, schema: nat) {
    && n < |steps| && steps[n].Reviewing? && steps[n].a.Advance? && steps[n].a.outcome.TookEffect()
    && var reviews := LoopRun(lokiSet, steps[..n]).review.reviews;
       steps[n].a.review < |reviews| && reviews[steps[n].a.review].pc == R.Publishing(c, v, schema)
  }

  // From position n on the registry has the category. A delete that is refused may occur.
  ghost predicate StaysFrom(lokiSet: bool, steps: seq<Step>, n: nat, c: string) {
    forall k | n <= k <= |steps| :: c in LoopRun(lokiSet, steps[..k]).review.shared.tables.categories
  }

  // The row of the version is there at position n.
  ghost predicate RowThere(lokiSet: bool, steps: seq<Step>, n: nat, schema: nat)
    requires n <= |steps|
  {
    HasSchema(LoopRun(lokiSet, steps[..n]).review.shared.tables, schema)
  }

  // The version that is announced has been reached.
  lemma AnnouncedIsReached(lokiSet: bool, steps: seq<Step>, n: nat, c: string, v: nat, schema: nat)
    requires Announces(lokiSet, steps, n, c, v, schema)
    requires RowThere(lokiSet, steps, n, schema)
    ensures Announceable(LoopRun(lokiSet, steps[..n]).norm.s.tables, Approval(c, v))
  {
    var l := LoopRun(lokiSet, steps[..n]);
    var rs := ReviewPart(lokiSet, steps[..n]);
    LoopIsBoth(lokiSet, steps[..n]);
    RunSeenReview(rs, [steps[n].a]);
    hide R.Run; hide LoopRun; hide HasSchema; hide Current;
    var review' := R.Next(l.review, steps[n].a);
    P.StepHolds(l.review.shared, l.review.reviews[steps[n].a.review], steps[n].a.outcome);
    AdvanceSeen(l.review.shared, l.review.reviews[steps[n].a.review], steps[n].a.outcome);
    P.AnnouncedVersionIsReached(rs + [steps[n].a], |l.review.shared.announced|);
  }

  // The normalizer's view of one step more: at most one action more.
  lemma PartNext(lokiSet: bool, steps: seq<Step>, m: nat)
    requires m < |steps|
    ensures var before, part := NormalizerPart(lokiSet, steps[..m]), NormalizerPart(lokiSet, steps[..m + 1]);
      |before| <= |part| <= |before| + 1 && part[..|before|] == before
  {
    var init := steps[..m];
    assert steps[..m + 1][..m] == init;
    LoopIsBoth(lokiSet, init);
    EveryRunSound(lokiSet, NormalizerPart(lokiSet, init));
    hide LoopRun; hide Run; hide Sound;
    StepIsBoth(LoopRun(lokiSet, init), steps[m]);
    hide NormalizerSees;
  }

  // Each position in the normalizer's view of a run is its view of a part of the run.
  lemma {:induction false} PartPosition(lokiSet: bool, steps: seq<Step>, n: nat, m: nat, k: nat) returns (j: nat)
    requires n <= m <= |steps|
    requires |NormalizerPart(lokiSet, steps[..n])| <= k <= |NormalizerPart(lokiSet, steps[..m])|
    ensures n <= j <= m && NormalizerPart(lokiSet, steps[..m])[..k] == NormalizerPart(lokiSet, steps[..j])
    decreases m
  {
    hide *;
    var part := NormalizerPart(lokiSet, steps[..m]);
    if k == |part| {
      j := m;
    } else {
      PartNext(lokiSet, steps, m - 1);
      var before := NormalizerPart(lokiSet, steps[..m - 1]);
      j := PartPosition(lokiSet, steps, n, m - 1, k);
      assert part[..k] == part[..|before|][..k];
    }
  }

  lemma {:induction false} LongerPart(lokiSet: bool, steps: seq<Step>, n: nat, m: nat)
    requires n <= m <= |steps|
    ensures var part, longer := NormalizerPart(lokiSet, steps[..n]), NormalizerPart(lokiSet, steps[..m]);
      |part| <= |longer| && longer[..|part|] == part
    decreases m
  {
    hide *;
    if n < m {
      LongerPart(lokiSet, steps, n, m - 1);
      PartNext(lokiSet, steps, m - 1);
    }
  }

  lemma StaysInPart(lokiSet: bool, steps: seq<Step>, n: nat, c: string)
    requires n <= |steps| && StaysFrom(lokiSet, steps, n, c)
    ensures StaysIn(lokiSet, NormalizerPart(lokiSet, steps), |NormalizerPart(lokiSet, steps[..n])|, c)
  {
    hide LoopRun; hide Run; hide NormalizerPart;
    var part, longer := NormalizerPart(lokiSet, steps[..n]), NormalizerPart(lokiSet, steps);
    assert steps[..|steps|] == steps;
    forall k | |part| <= k <= |longer| ensures c in Run(lokiSet, longer[..k]).s.tables.categories {
      var j := PartPosition(lokiSet, steps, n, |steps|, k);
      LoopIsBoth(lokiSet, steps[..j]);
    }
  }

  lemma PartAfter(lokiSet: bool, steps: seq<Step>, n: nat, c: string, v: nat, schema: nat)
    requires Announces(lokiSet, steps, n, c, v, schema)
    ensures NormalizerPart(lokiSet, steps[..n + 1]) == NormalizerPart(lokiSet, steps[..n]) + [Announce(Approval(c, v))]
  {
    assert steps[..n + 1][..n] == steps[..n];
    hide LoopRun;
  }

  // The announcement as the normalizer sees it.
  lemma AnnouncementSeen(lokiSet: bool, steps: seq<Step>, n: nat, c: string, v: nat, schema: nat)
    requires Announces(lokiSet, steps, n, c, v, schema)
    ensures var part, longer := NormalizerPart(lokiSet, steps[..n]), NormalizerPart(lokiSet, steps);
      |part| < |longer| && longer[|part|] == Announce(Approval(c, v)) && longer[..|part|] == part
  {
    PartAfter(lokiSet, steps, n, c, v, schema);
    assert n + 1 <= |steps| && steps[..|steps|] == steps;
    hide *;
    LongerPart(lokiSet, steps, n + 1, |steps|);
    NextElement(NormalizerPart(lokiSet, steps[..n]), Announce(Approval(c, v)), NormalizerPart(lokiSet, steps));
  }

  lemma AnnouncedInPart(lokiSet: bool, steps: seq<Step>, n: nat, c: string, v: nat, schema: nat)
    requires Announces(lokiSet, steps, n, c, v, schema) && RowThere(lokiSet, steps, n, schema) && c != ""
    ensures var part, longer := NormalizerPart(lokiSet, steps[..n]), NormalizerPart(lokiSet, steps);
      && Announced(lokiSet, longer, |part|, c, v) && longer[..|part|] == part
      && Run(lokiSet, part) == LoopRun(lokiSet, steps[..n]).norm
      && Run(lokiSet, longer) == LoopRun(lokiSet, steps).norm
  {
    AnnouncedIsReached(lokiSet, steps, n, c, v, schema);
    AnnouncementSeen(lokiSet, steps, n, c, v, schema);
    hide LoopRun; hide NormalizerPart; hide Run; hide Announceable; hide Announces; hide RowThere;
    hide ReviewPart; hide R.Run;
    LoopIsBoth(lokiSet, steps[..n]);
    LoopIsBoth(lokiSet, steps);
  }

  lemma NextElement<T>(s: seq<T>, x: T, longer: seq<T>)
    requires |s| < |longer| && longer[..|s| + 1] == s + [x]
    ensures longer[|s|] == x && longer[..|s|] == s
  {
    assert longer[..|s|] == longer[..|s| + 1][..|s|];
    assert longer[|s|] == longer[..|s| + 1][|s|];
  }

  // Main result: when a review announces version v of a category, which from then on stays in the
  // registry, then at any later time whatever call the handler of that announcement is in is on an
  // event of the category, and the step it takes next leaves it judged by version v or later; if
  // that step fails it, the replay reports an error and does not acknowledge the announcement.
  lemma ApprovedNeverGoesBack(lokiSet: bool, steps: seq<Step>, n: nat, c: string, v: nat, schema: nat, i: nat,
                              a: Answer)
    requires Announces(lokiSet, steps, n, c, v, schema) && RowThere(lokiSet, steps, n, schema) && c != ""
    requires StaysFrom(lokiSet, steps, n, c)
    requires HandlerCalls(LoopRun(lokiSet, steps).norm, i, |LoopRun(lokiSet, steps[..n]).norm.approvals|)
    ensures GoesForward(LoopRun(lokiSet, steps).norm, i, a, c, v)
  {
    AnnouncedInPart(lokiSet, steps, n, c, v, schema);
    var part, longer := NormalizerPart(lokiSet, steps[..n]), NormalizerPart(lokiSet, steps);
    StaysInPart(lokiSet, steps, n, c);
    assert AnnouncedForGood(lokiSet, longer, |part|, c, v);
    hide *;
    ReplayNeverGoesBack(lokiSet, longer, |part|, c, v, i, a);
  }

  // A category that has events when its version is announced does stay: deletes of it are refused.
  lemma ApprovedRoutedNeverGoesBack(lokiSet: bool, steps: seq<Step>, n: nat, c: string, v: nat, schema: nat, i: nat,
                                    a: Answer)
    requires Announces(lokiSet, steps, n, c, v, schema) && RowThere(lokiSet, steps, n, schema) && c != ""
    requires var t := LoopRun(lokiSet, steps[..n]).norm.s.tables; c in t.categories && HasEvents(t, t.categories[c])
    requires HandlerCalls(LoopRun(lokiSet, steps).norm, i, |LoopRun(lokiSet, steps[..n]).norm.approvals|)
    ensures GoesForward(LoopRun(lokiSet, steps).norm, i, a, c, v)
  {
    AnnouncedInPart(lokiSet, steps, n, c, v, schema);
    var part, longer := NormalizerPart(lokiSet, steps[..n]), NormalizerPart(lokiSet, steps);
    hide LoopRun; hide NormalizerPart; hide Run; hide Announced; hide Announces; hide HasEvents;
    hide HandlerCalls; hide GoesForward;
    RoutedNeverGoesBack(lokiSet, longer, |part|, c, v, i, a);
  }

  // And once the normalizer has acknowledged the announcement, a replay begun after it has dealt
  // with every row that waited for the category when it fetched them: each was routed and marked, or
  // quarantined again, under version v or later.
  lemma ApprovedReplayed(lokiSet: bool, steps: seq<Step>, n: nat, c: string, v: nat, schema: nat)
    returns (q: nat, i: nat)
    requires Announces(lokiSet, steps, n, c, v, schema) && RowThere(lokiSet, steps, n, schema) && c != ""
    requires StaysFrom(lokiSet, steps, n, c)
    requires |LoopRun(lokiSet, steps[..n]).norm.approvals| in LoopRun(lokiSet, steps).norm.s.approvalsAcked
    ensures var part, longer := NormalizerPart(lokiSet, steps[..n]), NormalizerPart(lokiSet, steps);
      && |part| < q && FetchedAt(lokiSet, longer, q, i)
      && var st := At(lokiSet, longer, q);
         && WaitingRows(PendingOf(st.s.rows, c), st.s.rows, c)
         && AllDealtWith(LoopRun(lokiSet, steps).norm.s, |st.s.finished|, PendingOf(st.s.rows, c), Some(v))
         && AllWaitingDealtWith(LoopRun(lokiSet, steps).norm.s, |st.s.finished|, st.s.rows, c, Some(v))
  {
    AnnouncedInPart(lokiSet, steps, n, c, v, schema);
    StaysInPart(lokiSet, steps, n, c);
    var part, longer := NormalizerPart(lokiSet, steps[..n]), NormalizerPart(lokiSet, steps);
    assert AnnouncedForGood(lokiSet, longer, |part|, c, v);
    assert At(lokiSet, longer, |part|) == Run(lokiSet, part);
    hide *;
    q, i := AckedReplayed(lokiSet, longer, |part|, c, v);
  }
}
