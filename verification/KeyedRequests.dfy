/**
 When requests with one idempotency key publish, in runs where they overlap: the exact condition,
 and the rule a client can follow (internal/coreapi/handlers.go:215-268).
 */
module KeyedRequests {
  import opened Prelude
  import opened Idempotency

  // --- Positions in a run ---

  ghost function At(actions: seq<Action>, n: nat): Sys
    requires n <= |actions|
  {
    Run(actions[..n])
  }

  lemma AtNext(actions: seq<Action>, n: nat)
    requires n < |actions|
    ensures At(actions, n + 1) == Next(At(actions, n), actions[n])
  {
    assert actions[..n + 1][..n] == actions[..n];
  }

  // Action i is a step of request j.
  ghost predicate Moves(actions: seq<Action>, i: nat, j: nat)
    requires i < |actions|
  {
    && actions[i].Advance? && actions[i].request == j
    && j < |At(actions, i).requests| && Mintable(At(actions, i).s, At(actions, i).requests[j].pc, actions[i].stamp)
  }

  // How many steps request j has taken among the first n actions.
  ghost function Turns(actions: seq<Action>, n: nat, j: nat): nat
    requires n <= |actions|
  {
    if n == 0 then 0 else Turns(actions, n - 1, j) + if Moves(actions, n - 1, j) then 1 else 0
  }

  ghost predicate Exists(actions: seq<Action>, n: nat, j: nat)
    requires n <= |actions|
  {
    j < |At(actions, n).requests|
  }

  ghost function ReqAt(actions: seq<Action>, n: nat, j: nat): Request
    requires n <= |actions| && Exists(actions, n, j)
  {
    At(actions, n).requests[j].req
  }

  ghost function PcAt(actions: seq<Action>, n: nat, j: nat): Pc
    requires n <= |actions| && Exists(actions, n, j)
  {
    At(actions, n).requests[j].pc
  }

  // One action later: a request is the one that moved, stays as it was, or has just arrived.
  lemma OneStep(actions: seq<Action>, n: nat, j: nat)
    requires n < |actions| && Exists(actions, n + 1, j)
    ensures Exists(actions, n, j) ==>
      && ReqAt(actions, n + 1, j) == ReqAt(actions, n, j)
      && PcAt(actions, n + 1, j) ==
        if Moves(actions, n, j)
        then Step(At(actions, n).s, ReqAt(actions, n, j), PcAt(actions, n, j), actions[n].outcome, actions[n].stamp).1
        else PcAt(actions, n, j)
    ensures !Exists(actions, n, j) ==> PcAt(actions, n + 1, j) == Looking && !Moves(actions, n, j)
  {
    AtNext(actions, n);
    hide At; hide Step;
  }

  lemma {:induction false} Stays(actions: seq<Action>, n: nat, m: nat, j: nat)
    requires n <= m <= |actions| && Exists(actions, n, j)
    ensures Exists(actions, m, j) && ReqAt(actions, m, j) == ReqAt(actions, n, j)
    decreases m
  {
    if n < m {
      Stays(actions, n, m - 1, j);
      AtNext(actions, m - 1);
      hide At; hide Step;
    }
  }

  lemma {:induction false} NoTurnsYet(actions: seq<Action>, n: nat, j: nat)
    requires n <= |actions| && !Exists(actions, n, j)
    ensures Turns(actions, n, j) == 0
  {
    if n > 0 {
      if Exists(actions, n - 1, j) { Stays(actions, n - 1, n, j); }
      NoTurnsYet(actions, n - 1, j);
    }
  }

  // --- Saves and lookups ---

  // Action i stores a response under this key, or finds one stored.
  ghost predicate Saves(actions: seq<Action>, i: nat, key: Key)
    requires i < |actions|
  {
    && actions[i].Advance? && Moves(actions, i, actions[i].request)
    && PcAt(actions, i, actions[i].request).Saving? && Under(ReqAt(actions, i, actions[i].request), key)
    && actions[i].outcome.TookEffect()
  }

  ghost predicate SavedBy(actions: seq<Action>, n: nat, key: Key)
    requires n <= |actions|
  {
    exists i | 0 <= i < n :: Saves(actions, i, key)
  }

  lemma SavedNext(actions: seq<Action>, n: nat, key: Key)
    requires n < |actions|
    ensures SavedBy(actions, n + 1, key) <==> SavedBy(actions, n, key) || Saves(actions, n, key)
  {
    hide Saves;
  }

  // A key is in the table exactly when an earlier save under it took effect.
  lemma {:induction false} InTableIffSaved(actions: seq<Action>, n: nat, key: Key)
    requires n <= |actions|
    ensures key in At(actions, n).s.table <==> SavedBy(actions, n, key)
  {
    if n > 0 {
      InTableIffSaved(actions, n - 1, key);
      SavedNext(actions, n - 1, key);
      AtNext(actions, n - 1);
      hide At; hide SavedBy;
    }
  }

  // The first step of request j looks its key up, or passes if it has none.
  ghost predicate LooksUp(actions: seq<Action>, i: nat, j: nat)
    requires i < |actions|
  {
    Moves(actions, i, j) && Turns(actions, i, j) == 0
  }

  // It finds no stored response: no save under its key has taken effect before.
  ghost predicate Passes(actions: seq<Action>, i: nat, j: nat)
    requires i < |actions|
  {
    && LooksUp(actions, i, j)
    && var r := ReqAt(actions, i, j);
       r.key == "" || (actions[i].outcome.Ok? && !SavedBy(actions, i, KeyOf(r)))
  }

  ghost predicate PassedBy(actions: seq<Action>, n: nat, j: nat)
    requires n <= |actions|
  {
    exists i | 0 <= i < n :: Passes(actions, i, j)
  }

  // Where a request stands after so many of its own steps.
  ghost predicate Placed(r: Request, pc: Pc, turns: nat, passed: bool) {
    && (turns == 0 <==> pc.Looking?)
    && (turns == 0 ==> !passed)
    && (pc.Checking? <==> turns == 1 && passed)
    && (pc.Publishing? <==> turns == 2 && passed && CompleteBody(r))
  }

  lemma PassedNext(actions: seq<Action>, n: nat, j: nat)
    requires n < |actions|
    ensures PassedBy(actions, n + 1, j) <==> PassedBy(actions, n, j) || Passes(actions, n, j)
  {
    hide Passes;
  }

  lemma PassedExists(actions: seq<Action>, n: nat, j: nat)
    requires n <= |actions| && PassedBy(actions, n, j)
    ensures Exists(actions, n, j)
  {
    var i :| 0 <= i < n && Passes(actions, i, j);
    Stays(actions, i, n, j);
  }

  lemma {:induction false} PlaceOf(actions: seq<Action>, n: nat, j: nat)
    requires n <= |actions| && Exists(actions, n, j)
    ensures Placed(ReqAt(actions, n, j), PcAt(actions, n, j), Turns(actions, n, j), PassedBy(actions, n, j))
  {
    if n > 0 {
      var m := n - 1;
      OneStep(actions, m, j);
      PassedNext(actions, m, j);
      if Exists(actions, m, j) {
        PlaceOf(actions, m, j);
        PlaceNext(actions, m, j);
      } else {
        NoTurnsYet(actions, m, j);
        if PassedBy(actions, m, j) { PassedExists(actions, m, j); }
      }
    }
  }

  lemma PlaceNext(actions: seq<Action>, m: nat, j: nat)
    requires m < |actions| && Exists(actions, m, j) && Exists(actions, m + 1, j)
    requires Placed(ReqAt(actions, m, j), PcAt(actions, m, j), Turns(actions, m, j), PassedBy(actions, m, j))
    ensures Placed(ReqAt(actions, m + 1, j), PcAt(actions, m + 1, j), Turns(actions, m + 1, j),
                   PassedBy(actions, m + 1, j))
  {
    var r := ReqAt(actions, m, j);
    OneStep(actions, m, j);
    PassedNext(actions, m, j);
    InTableIffSaved(actions, m, KeyOf(r));
    hide At; hide SavedBy; hide PassedBy; hide CompleteBody;
    if Moves(actions, m, j) {
      MovePlaces(At(actions, m).s, r, PcAt(actions, m, j), Turns(actions, m, j), PassedBy(actions, m, j),
                 actions[m].outcome, actions[m].stamp);
    }
  }

  // What one step does to a request's place.
  lemma MovePlaces(s: Shared, r: Request, pc: Pc, turns: nat, passed: bool, outcome: Outcome, stamp: Stamp)
    requires Placed(r, pc, turns, passed)
    ensures var passes := turns == 0 && (r.key == "" || (outcome.Ok? && KeyOf(r) !in s.table));
      Placed(r, Step(s, r, pc, outcome, stamp).1, turns + 1, passed || passes)
  {
  }

  // Main result: a keyed request's successful lookup is answered 200 exactly when a save under its
  // key took effect before; otherwise it goes on.
  lemma LookupIff(actions: seq<Action>, i: nat, j: nat)
    requires i < |actions| && LooksUp(actions, i, j) && Exists(actions, i + 1, j)
    requires ReqAt(actions, i, j).key != "" && actions[i].outcome.Ok?
    ensures PcAt(actions, i + 1, j).Stored? <==> SavedBy(actions, i, KeyOf(ReqAt(actions, i, j)))
    ensures PcAt(actions, i + 1, j) == Checking <==> !SavedBy(actions, i, KeyOf(ReqAt(actions, i, j)))
  {
    PlaceOf(actions, i, j);
    OneStep(actions, i, j);
    InTableIffSaved(actions, i, KeyOf(ReqAt(actions, i, j)));
    hide At; hide SavedBy;
  }

  // --- Publishing ---

  // Action i is a step of request j, and puts an event on the stream.
  ghost predicate Publishes(actions: seq<Action>, i: nat, j: nat)
    requires i < |actions|
  {
    Moves(actions, i, j) && At(actions, i + 1).s.stream != At(actions, i).s.stream
  }

  ghost predicate Published(actions: seq<Action>, j: nat) {
    exists i | 0 <= i < |actions| :: Publishes(actions, i, j)
  }

  // The third step of request j takes effect.
  ghost predicate ThirdTakesEffect(actions: seq<Action>, i: nat, j: nat)
    requires i < |actions|
  {
    Moves(actions, i, j) && Turns(actions, i, j) == 2 && actions[i].outcome.TookEffect()
  }

  ghost predicate TakesEffect(actions: seq<Action>, j: nat) {
    exists i | 0 <= i < |actions| :: ThirdTakesEffect(actions, i, j)
  }

  lemma PublishesIff(actions: seq<Action>, i: nat, j: nat)
    requires i < |actions|
    ensures Publishes(actions, i, j) <==>
      ThirdTakesEffect(actions, i, j) && PassedBy(actions, i, j) && CompleteBody(ReqAt(actions, i, j))
  {
    if Moves(actions, i, j) {
      PlaceOf(actions, i, j);
      AtNext(actions, i);
      hide At; hide PassedBy;
    }
  }

  lemma OnlyFirstTurnPasses(actions: seq<Action>, i: nat, m: nat, j: nat)
    requires i <= m < |actions| && Turns(actions, i, j) > 0
    ensures !Passes(actions, m, j)
  {
    TurnsGrow(actions, i, m, j);
  }

  lemma {:induction false} TurnsGrow(actions: seq<Action>, n: nat, m: nat, j: nat)
    requires n <= m <= |actions|
    ensures Turns(actions, n, j) <= Turns(actions, m, j)
    decreases m
  {
    if n < m { TurnsGrow(actions, n, m - 1, j); }
  }

  // A request publishes once at most.
  lemma OncePerRequest(actions: seq<Action>, i: nat, m: nat, j: nat)
    requires i < |actions| && m < |actions| && Publishes(actions, i, j) && Publishes(actions, m, j)
    ensures i == m
  {
    PublishesIff(actions, i, j);
    PublishesIff(actions, m, j);
    hide Publishes; hide PassedBy; hide Moves;
    if i < m { TurnsGrow(actions, i + 1, m, j); }
    if m < i { TurnsGrow(actions, m + 1, i, j); }
  }

  // Main result, for any interleaving: a request publishes if and only if its lookup succeeds before
  // any save under its key takes effect (or it has no key), its body is complete, and its publish
  // takes effect.
  lemma PublishedIff(actions: seq<Action>, j: nat)
    requires j < |Run(actions).requests|
    ensures Published(actions, j) <==>
      PassedBy(actions, |actions|, j) && CompleteBody(Run(actions).requests[j].req) && TakesEffect(actions, j)
  {
    assert actions[..|actions|] == actions;
    var r := Run(actions).requests[j].req;
    forall i | 0 <= i < |actions| && Moves(actions, i, j)
      ensures ReqAt(actions, i, j) == r
      ensures Turns(actions, i, j) > 0 ==> (PassedBy(actions, i, j) <==> PassedBy(actions, |actions|, j))
    {
      Stays(actions, i, |actions|, j);
      if Turns(actions, i, j) > 0 { PassedStays(actions, i, j); }
    }
    forall i | 0 <= i < |actions|
      ensures Publishes(actions, i, j) <==>
        ThirdTakesEffect(actions, i, j) && PassedBy(actions, |actions|, j) && CompleteBody(r)
    {
      PublishesIff(actions, i, j);
    }
    hide Publishes; hide ThirdTakesEffect; hide PassedBy; hide CompleteBody;
  }

  lemma PassedStays(actions: seq<Action>, i: nat, j: nat)
    requires i <= |actions| && Turns(actions, i, j) > 0
    ensures PassedBy(actions, i, j) <==> PassedBy(actions, |actions|, j)
  {
    hide Passes;
    if PassedBy(actions, |actions|, j) {
      var m :| 0 <= m < |actions| && Passes(actions, m, j);
      if m >= i {
        OnlyFirstTurnPasses(actions, i, m, j);
      }
    }
  }

  // --- Replies ---

  // Action i is the lookup of request j, and fails.
  ghost predicate LookupFails(actions: seq<Action>, i: nat, j: nat)
    requires i < |actions|
  {
    LooksUp(actions, i, j) && ReqAt(actions, i, j).key != "" && !actions[i].outcome.Ok?
  }

  ghost predicate LookupFailed(actions: seq<Action>, n: nat, j: nat)
    requires n <= |actions|
  {
    exists i | 0 <= i < n :: LookupFails(actions, i, j)
  }

  // Action i is its third step, the publish of a request that gets there, and is reported as failed.
  ghost predicate ThirdFails(actions: seq<Action>, i: nat, j: nat)
    requires i < |actions|
  {
    Moves(actions, i, j) && Turns(actions, i, j) == 2 && !actions[i].outcome.Ok?
  }

  ghost predicate ThirdFailed(actions: seq<Action>, n: nat, j: nat)
    requires n <= |actions|
  {
    exists i | 0 <= i < n :: ThirdFails(actions, i, j)
  }

  // What a request has been answered, if anything, after so many of its own steps.
  ghost predicate AnsweredAs(r: Request, pc: Pc, turns: nat, passed: bool, lookupFailed: bool, thirdFailed: bool) {
    && (pc == Refused(500) <==> lookupFailed)
    && (pc == Refused(400) <==> passed && !CompleteBody(r) && turns >= 2)
    && (pc == Refused(503) <==> passed && CompleteBody(r) && thirdFailed)
    && (pc.Refused? ==> pc.code == 400 || pc.code == 500 || pc.code == 503)
    && (pc.Created? <==> passed && CompleteBody(r) && !thirdFailed && turns >= if r.key == "" then 3 else 4)
    && (pc.Stored? <==> !passed && !lookupFailed && turns >= 1)
  }

  // Before that.
  ghost predicate Underway(r: Request, pc: Pc, turns: nat, passed: bool, lookupFailed: bool, thirdFailed: bool) {
    && (lookupFailed ==> !passed && turns >= 1)
    && (thirdFailed ==> turns >= 3)
    && (pc.Saving? <==> passed && CompleteBody(r) && !thirdFailed && turns == 3 && r.key != "")
  }

  lemma FailuresNext(actions: seq<Action>, n: nat, j: nat)
    requires n < |actions|
    ensures LookupFailed(actions, n + 1, j) <==> LookupFailed(actions, n, j) || LookupFails(actions, n, j)
    ensures ThirdFailed(actions, n + 1, j) <==> ThirdFailed(actions, n, j) || ThirdFails(actions, n, j)
  {
    hide LookupFails; hide ThirdFails;
  }

  lemma {:induction false} NothingFailedYet(actions: seq<Action>, n: nat, j: nat)
    requires n <= |actions| && !Exists(actions, n, j)
    ensures !LookupFailed(actions, n, j) && !ThirdFailed(actions, n, j) && !PassedBy(actions, n, j)
  {
    if PassedBy(actions, n, j) { PassedExists(actions, n, j); }
    forall i | 0 <= i < n ensures !Moves(actions, i, j) {
      if Moves(actions, i, j) { Stays(actions, i, n, j); }
    }
  }

  // What one step does to a request's answer.
  lemma MoveAnswers(s: Shared, r: Request, pc: Pc, turns: nat, passed: bool, lookupFailed: bool, thirdFailed: bool,
                    outcome: Outcome, stamp: Stamp)
    requires Placed(r, pc, turns, passed) && AnsweredAs(r, pc, turns, passed, lookupFailed, thirdFailed)
    requires Underway(r, pc, turns, passed, lookupFailed, thirdFailed)
    ensures var pc' := Step(s, r, pc, outcome, stamp).1;
      var passed' := passed || (turns == 0 && (r.key == "" || (outcome.Ok? && KeyOf(r) !in s.table)));
      var lookupFailed' := lookupFailed || (turns == 0 && r.key != "" && !outcome.Ok?);
      var thirdFailed' := thirdFailed || (turns == 2 && !outcome.Ok?);
      && AnsweredAs(r, pc', turns + 1, passed', lookupFailed', thirdFailed')
      && Underway(r, pc', turns + 1, passed', lookupFailed', thirdFailed')
  {
    assert !(passed && lookupFailed);
  }

  lemma {:induction false} AnswerOf(actions: seq<Action>, n: nat, j: nat)
    requires n <= |actions| && Exists(actions, n, j)
    ensures AnsweredAs(ReqAt(actions, n, j), PcAt(actions, n, j), Turns(actions, n, j), PassedBy(actions, n, j),
                       LookupFailed(actions, n, j), ThirdFailed(actions, n, j))
    ensures Underway(ReqAt(actions, n, j), PcAt(actions, n, j), Turns(actions, n, j), PassedBy(actions, n, j),
                     LookupFailed(actions, n, j), ThirdFailed(actions, n, j))
  {
    if n > 0 {
      var m := n - 1;
      OneStep(actions, m, j);
      PassedNext(actions, m, j);
      FailuresNext(actions, m, j);
      if Exists(actions, m, j) {
        AnswerOf(actions, m, j);
        PlaceOf(actions, m, j);
        AnswerNext(actions, m, j);
      } else {
        NothingFailedYet(actions, m, j);
        NoTurnsYet(actions, m, j);
      }
    }
  }

  lemma AnswerNext(actions: seq<Action>, m: nat, j: nat)
    requires m < |actions| && Exists(actions, m, j) && Exists(actions, m + 1, j)
    requires Placed(ReqAt(actions, m, j), PcAt(actions, m, j), Turns(actions, m, j), PassedBy(actions, m, j))
    requires AnsweredAs(ReqAt(actions, m, j), PcAt(actions, m, j), Turns(actions, m, j), PassedBy(actions, m, j),
                        LookupFailed(actions, m, j), ThirdFailed(actions, m, j))
    requires Underway(ReqAt(actions, m, j), PcAt(actions, m, j), Turns(actions, m, j), PassedBy(actions, m, j),
                      LookupFailed(actions, m, j), ThirdFailed(actions, m, j))
    ensures AnsweredAs(ReqAt(actions, m + 1, j), PcAt(actions, m + 1, j), Turns(actions, m + 1, j),
                       PassedBy(actions, m + 1, j), LookupFailed(actions, m + 1, j), ThirdFailed(actions, m + 1, j))
    ensures Underway(ReqAt(actions, m + 1, j), PcAt(actions, m + 1, j), Turns(actions, m + 1, j),
                     PassedBy(actions, m + 1, j), LookupFailed(actions, m + 1, j), ThirdFailed(actions, m + 1, j))
  {
    var r := ReqAt(actions, m, j);
    OneStep(actions, m, j);
    PassedNext(actions, m, j);
    FailuresNext(actions, m, j);
    InTableIffSaved(actions, m, KeyOf(r));
    hide At; hide SavedBy; hide PassedBy; hide LookupFailed; hide ThirdFailed; hide AnsweredAs; hide Underway;
    hide Placed;
    if Moves(actions, m, j) {
      MoveAnswers(At(actions, m).s, r, PcAt(actions, m, j), Turns(actions, m, j), PassedBy(actions, m, j),
                  LookupFailed(actions, m, j), ThirdFailed(actions, m, j), actions[m].outcome, actions[m].stamp);
    }
  }

  // Main result: 500 means that the lookup failed; 400 that it found nothing and the body is
  // incomplete; 503 that it found nothing, the body is complete and the publish was reported as
  // failed; 201 that the publish was reported as done, whatever became of the save; 200 that the
  // lookup found a response. There are no other replies.
  lemma RepliesMean(actions: seq<Action>, j: nat)
    requires j < |Run(actions).requests|
    ensures var h := Run(actions).requests[j];
      AnsweredAs(h.req, h.pc, Turns(actions, |actions|, j), PassedBy(actions, |actions|, j),
                 LookupFailed(actions, |actions|, j), ThirdFailed(actions, |actions|, j))
  {
    assert actions[..|actions|] == actions;
    AnswerOf(actions, |actions|, j);
    hide AnsweredAs; hide PassedBy; hide LookupFailed; hide ThirdFailed;
  }

  // --- Keys published twice ---

  // Two requests with this key, in either order.
  ghost predicate TwoOf(actions: seq<Action>, key: Key, j: nat, k: nat) {
    && j < k < |Run(actions).requests|
    && Under(Run(actions).requests[j].req, key) && Under(Run(actions).requests[k].req, key)
  }

  // A complete request that looks up before the first effective save, and whose publish takes effect.
  ghost predicate TooEarly(actions: seq<Action>, j: nat)
    requires j < |Run(actions).requests|
  {
    PassedBy(actions, |actions|, j) && CompleteBody(Run(actions).requests[j].req) && TakesEffect(actions, j)
  }

  // Main result: a key is published twice if and only if two such requests look up before the first
  // save under the key takes effect.
  lemma PublishedTwiceIff(actions: seq<Action>, key: Key)
    ensures (exists j, k :: TwoOf(actions, key, j, k) && Published(actions, j) && Published(actions, k))
       <==> (exists j, k :: TwoOf(actions, key, j, k) && TooEarly(actions, j) && TooEarly(actions, k))
  {
    forall j | 0 <= j < |Run(actions).requests| ensures Published(actions, j) <==> TooEarly(actions, j) {
      PublishedIff(actions, j);
    }
    hide Published; hide TooEarly; hide Run;
    if exists j, k :: TwoOf(actions, key, j, k) && Published(actions, j) && Published(actions, k) {
      var j, k :| TwoOf(actions, key, j, k) && Published(actions, j) && Published(actions, k);
      assert TooEarly(actions, j) && TooEarly(actions, k);
    }
    if exists j, k :: TwoOf(actions, key, j, k) && TooEarly(actions, j) && TooEarly(actions, k) {
      var j, k :| TwoOf(actions, key, j, k) && TooEarly(actions, j) && TooEarly(actions, k);
      assert Published(actions, j) && Published(actions, k);
    }
  }

  // --- The rule for clients ---

  // When a request with this key looks up, every other one has been answered or has yet to start.
  ghost predicate WaitsForReplies(actions: seq<Action>, key: Key) {
    forall i, j, k | 0 <= i < |actions| && LooksUp(actions, i, j) && Under(ReqAt(actions, i, j), key) ::
      OthersIdle(actions, i, j, k, key)
  }

  ghost predicate OthersIdle(actions: seq<Action>, i: nat, j: nat, k: nat, key: Key)
    requires i <= |actions|
  {
    j != k && Exists(actions, i, k) && Under(ReqAt(actions, i, k), key) ==>
      PcAt(actions, i, k).Looking? || PcAt(actions, i, k).Replied()
  }

  // No publish under this key is lost on the way back, and no save under it is lost.
  ghost predicate NothingLost(actions: seq<Action>, key: Key) {
    forall i, j | 0 <= i < |actions| && Moves(actions, i, j) && Under(ReqAt(actions, i, j), key) ::
      NotLost(PcAt(actions, i, j), actions[i].outcome)
  }

  predicate NotLost(pc: Pc, outcome: Outcome) {
    (pc.Publishing? ==> !outcome.LostReply?) && (pc.Saving? ==> outcome.TookEffect())
  }

  lemma {:induction false} RepliedStays(actions: seq<Action>, n: nat, m: nat, j: nat)
    requires n <= m <= |actions| && Exists(actions, n, j) && Exists(actions, m, j) && PcAt(actions, n, j).Replied()
    ensures PcAt(actions, m, j).Replied()
    decreases m
  {
    if n < m {
      Stays(actions, n, m - 1, j);
      RepliedStays(actions, n, m - 1, j);
      OneStep(actions, m - 1, j);
      hide At;
    }
  }

  // From its publish on, a request is about to save, or a save has taken effect.
  lemma {:induction false} PublishedThenSaves(actions: seq<Action>, key: Key, i: nat, n: nat, j: nat)
    requires i < n <= |actions| && Publishes(actions, i, j) && Exists(actions, n, j)
    requires key.0 != "" && Under(ReqAt(actions, i, j), key) && NothingLost(actions, key)
    ensures PcAt(actions, n, j).Saving? || SavedBy(actions, n, key)
    decreases n
  {
    var m := n - 1;
    Stays(actions, i, m, j);
    OneStep(actions, m, j);
    SavedNext(actions, m, key);
    if m == i {
      PublishesIff(actions, i, j);
      PlaceOf(actions, i, j);
      hide At; hide SavedBy; hide NothingLost; hide PassedBy;
      assert NotLost(PcAt(actions, i, j), actions[i].outcome) by { LostNothing(actions, key, i, j); }
    } else {
      PublishedThenSaves(actions, key, i, m, j);
      hide At; hide SavedBy; hide NothingLost; hide Publishes;
      if PcAt(actions, m, j).Saving? && Moves(actions, m, j) {
        assert NotLost(PcAt(actions, m, j), actions[m].outcome) by { LostNothing(actions, key, m, j); }
      }
    }
  }

  lemma LostNothing(actions: seq<Action>, key: Key, i: nat, j: nat)
    requires i < |actions| && Moves(actions, i, j) && Under(ReqAt(actions, i, j), key) && NothingLost(actions, key)
    ensures NotLost(PcAt(actions, i, j), actions[i].outcome)
  {
    hide NotLost;
  }

  // A request that looks up after another one of its key has, and that waited for it, does not pass
  // if the other one published.
  lemma SecondDoesNotPass(actions: seq<Action>, key: Key, j: nat, k: nat, i: nat, first: nat, second: nat)
    requires first < second < |actions| && i < |actions| && j != k && key.0 != ""
    requires LooksUp(actions, first, j) && Publishes(actions, i, j) && LooksUp(actions, second, k)
    requires Under(ReqAt(actions, first, j), key) && Under(ReqAt(actions, second, k), key)
    requires WaitsForReplies(actions, key) && NothingLost(actions, key)
    ensures !Passes(actions, second, k)
  {
    Stays(actions, first, second, j);
    TurnsGrow(actions, first + 1, second, j);
    PlaceOf(actions, second, j);
    assert OthersIdle(actions, second, k, j, key);
    PublishesIff(actions, i, j);
    PlaceOf(actions, i, j);
    assert PcAt(actions, second, j).Replied() && PcAt(actions, i, j).Publishing?;
    if second <= i {
      RepliedStays(actions, second, i, j);
    } else {
      SameRequest(actions, first, i, j);
      PublishedThenSaves(actions, key, i, second, j);
    }
  }

  lemma SameRequest(actions: seq<Action>, n: nat, m: nat, j: nat)
    requires n <= |actions| && m <= |actions| && Exists(actions, n, j) && Exists(actions, m, j)
    ensures ReqAt(actions, n, j) == ReqAt(actions, m, j)
  {
    if n <= m { Stays(actions, n, m, j); } else { Stays(actions, m, n, j); }
  }

  // Main result: a client that sends a request only when the earlier ones with its key have been
  // answered gets each key published at most once, as long as no publish or save is lost.
  lemma WaitForReply(actions: seq<Action>, key: Key, j: nat, k: nat)
    requires key.0 != "" && WaitsForReplies(actions, key) && NothingLost(actions, key)
    requires TwoOf(actions, key, j, k)
    ensures !(Published(actions, j) && Published(actions, k))
  {
    if Published(actions, j) && Published(actions, k) {
      assert actions[..|actions|] == actions;
      PublishedIff(actions, j);
      PublishedIff(actions, k);
      var p :| 0 <= p < |actions| && Publishes(actions, p, j);
      var q :| 0 <= q < |actions| && Publishes(actions, q, k);
      var first :| 0 <= first < |actions| && Passes(actions, first, j);
      var second :| 0 <= second < |actions| && Passes(actions, second, k);
      SameRequest(actions, first, |actions|, j);
      SameRequest(actions, second, |actions|, k);
      hide Run; hide Publishes; hide NothingLost; hide WaitsForReplies;
      assert first != second;
      if first < second {
        SecondDoesNotPass(actions, key, j, k, p, first, second);
      } else {
        SecondDoesNotPass(actions, key, k, j, q, second, first);
      }
    }
  }
}
