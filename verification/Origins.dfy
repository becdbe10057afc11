/**
 Where the quarantine rows and the calls in a run come from: every row and every call belongs to
 a published envelope, so the stored JSON always decodes back to what was quarantined.
 */
module Origins {
  import opened Prelude
  import opened Envelopes
  import opened RegistryClient
  import opened QuarantineTable
  import opened Normalizer
  import opened NormalizerRuns

  type Messages = seq<Option<Envelope>>

  ghost predicate Published(ms: Messages, e: Envelope) {
    Some(e) in ms
  }

  ghost predicate UniqueIds(ms: Messages) {
    forall i, j | 0 <= i < j < |ms| && ms[i].Some? && ms[j].Some? :: ms[i].value.eventId != ms[j].value.eventId
  }

  // The row keeps a published envelope under its event id.
  ghost predicate Stores(ms: Messages, row: QRow, e: Envelope) {
    Published(ms, e) && row.raw == Encode(e) && row.id == e.eventId && Decode(row.raw) == Some(e)
  }

  ghost predicate Stored(ms: Messages, row: QRow) {
    Decode(row.raw).Some? && Stores(ms, row, Decode(row.raw).value)
  }

  ghost predicate AllStored(ms: Messages, rows: seq<QRow>) {
    forall i | 0 <= i < |rows| :: Stored(ms, rows[i])
  }

  ghost predicate TaskFits(ms: Messages, t: Task) {
    match t
    case Ingest(m, phase) =>
      && m < |ms|
      && (phase.Garbage? ==> ms[m] == None)
      && (phase.Handling? ==> ms[m] == Some(phase.call.env) && !phase.call.pc.Returned())
    case Replay(_, _, phase) =>
      && !phase.Bumping?
      && (phase.Calling?
          ==> Stores(ms, phase.row, phase.call.env) && !phase.call.pc.Returned() && AllStored(ms, phase.left))
      && (phase.Marking? ==> Stored(ms, phase.row) && AllStored(ms, phase.left))
  }

  ghost predicate Sound(st: Sys) {
    && UniqueIds(st.messages)
    && DistinctRows(st.s.rows)
    && AllStored(st.messages, st.s.rows)
    && (forall i | 0 <= i < |st.s.finished| :: Published(st.messages, st.s.finished[i].env))
    && (forall i | 0 <= i < |st.tasks| :: TaskFits(st.messages, st.tasks[i]))
  }

  lemma EncodedStores(ms: Messages, row: QRow, e: Envelope)
    requires Published(ms, e) && row.raw == Encode(e) && row.id == e.eventId
    ensures Stores(ms, row, e)
  {
    DecodeEncode(e);
  }

  lemma StoredWaits(ms: Messages, row: QRow, category: string)
    requires Stored(ms, row)
    ensures IsPending(row, category) <==> Waits(row, category)
  {
    DecodeEncode(Decode(row.raw).value);
    hide Decode; hide Encode;
  }

  lemma AllStoredWait(ms: Messages, rows: seq<QRow>, category: string)
    requires AllStored(ms, rows)
    ensures WaitingRows(PendingOf(rows, category), rows, category)
    ensures forall i | 0 <= i < |rows| :: IsPending(rows[i], category) <==> Waits(rows[i], category)
  {
    hide Stored; hide IsPending; hide Waits; hide PendingOf; hide WaitingRows;
    forall i | 0 <= i < |rows| ensures IsPending(rows[i], category) <==> Waits(rows[i], category) {
      StoredWaits(ms, rows[i], category);
    }
    PendingWaits(rows, category);
  }

  lemma SameEnvelope(ms: Messages, e: Envelope, f: Envelope)
    requires UniqueIds(ms) && Published(ms, e) && Published(ms, f) && e.eventId == f.eventId
    ensures e == f
  {
    var i :| 0 <= i < |ms| && ms[i] == Some(e);
    var j :| 0 <= j < |ms| && ms[j] == Some(f);
  }

  // The table keeps storing published envelopes, each in one row.
  ghost predicate TableSound(ms: Messages, rows: seq<QRow>) {
    DistinctRows(rows) && AllStored(ms, rows)
  }

  lemma UpsertSound(ms: Messages, rows: seq<QRow>, e: Envelope, reason: Reason)
    requires TableSound(ms, rows) && Published(ms, e)
    ensures TableSound(ms, Upsert(rows, e, reason))
  {
    UpsertKeepsDistinct(rows, e, reason);
    EncodedStores(ms, QRow(e.eventId, Encode(e), reason, PendingReplay, 0), e);
    hide Encode; hide Decode; hide Published;
    var i := IndexOf(rows, e.eventId);
    if i < |rows| {
      assert Stored(ms, rows[i]);
      assert Stored(ms, rows[i].(attempts := rows[i].attempts + 1, reason := reason));
    }
  }

  lemma MarkSound(ms: Messages, rows: seq<QRow>, id: string)
    requires TableSound(ms, rows)
    ensures TableSound(ms, Mark(rows, id))
  {
    hide Encode; hide Decode; hide Published;
    var i := IndexOf(rows, id);
    if i < |rows| {
      assert Stored(ms, rows[i]);
      assert Stored(ms, rows[i].(status := Replayed));
    }
  }

  lemma PendingStored(ms: Messages, rows: seq<QRow>, category: string)
    requires AllStored(ms, rows)
    ensures AllStored(ms, PendingOf(rows, category))
  {
    PendingMembers(rows, category);
    hide Stored; hide PendingOf;
    forall i | 0 <= i < |PendingOf(rows, category)| ensures Stored(ms, PendingOf(rows, category)[i]) {
      assert PendingOf(rows, category)[i] in PendingOf(rows, category);
    }
  }

  // Going on with stored rows means calling Process on the envelopes they store.
  lemma NextRowFits(ms: Messages, left: seq<QRow>, n: nat, trigger: Trigger, category: string)
    requires AllStored(ms, left)
    ensures TaskFits(ms, Replay(trigger, category, NextRow(left, n)))
  {
    hide Decode; hide Encode; hide Published;
    if left != [] { assert Stored(ms, left[0]); }
  }

  lemma IdleFits(s: Shared, ms: Messages, t: Task, a: Answer)
    requires CallOf(t).None? && TaskFits(ms, t) && TableSound(ms, s.rows)
    ensures var (s', t') := TaskStep(s, t, a); TaskFits(ms, t') && TableSound(ms, s'.rows)
  {
    hide Decode; hide Encode; hide Published; hide NextRow; hide PendingOf; hide Get;
    hide RegistryClient.Answer; hide CallStep; hide TableSound; hide Mark; hide AllStored; hide Stored;
    match t
    case Ingest(_, _) =>
    case Replay(trigger, category, phase) =>
      match phase
      case Fetching(id) =>
        assert AllStored(ms, s.rows) by { TableSoundMeans(ms, s.rows); }
        FetchedFits(s, ms, id, trigger, category);
      case Querying =>
        assert AllStored(ms, s.rows) by { TableSoundMeans(ms, s.rows); }
        PendingStored(ms, s.rows, category);
        NextRowFits(ms, PendingOf(s.rows, category), 0, trigger, category);
      case Marking(row, left, n) =>
        NextRowFits(ms, left, n + 1, trigger, category);
        MarkSound(ms, s.rows, row.id);
      case _ =>
  }

  lemma TableSoundMeans(ms: Messages, rows: seq<QRow>)
    ensures TableSound(ms, rows) <==> DistinctRows(rows) && AllStored(ms, rows)
  {
  }

  lemma FetchedFits(s: Shared, ms: Messages, id: string, trigger: Trigger, category: string)
    requires AllStored(ms, s.rows)
    ensures var i := IndexOf(s.rows, id);
      i < |s.rows| ==> TaskFits(ms, Replay(trigger, category, NextRow([s.rows[i]], 0)))
  {
    var i := IndexOf(s.rows, id);
    if i < |s.rows| {
      NextRowFits(ms, [s.rows[i]], 0, trigger, category);
    }
  }

  lemma CallingFits(s: Shared, ms: Messages, t: Task, a: Answer)
    requires CallOf(t).Some? && TaskFits(ms, t) && TableSound(ms, s.rows)
    ensures var (s', t') := TaskStep(s, t, a);
      && TaskFits(ms, t') && TableSound(ms, s'.rows)
      && (s'.finished == s.finished || s'.finished == s.finished + [CallStep(s, CallOf(t).value, a).1])
      && CallStep(s, CallOf(t).value, a).1.env == CallOf(t).value.env && Published(ms, CallOf(t).value.env)
  {
    var c := CallOf(t).value;
    CallingStep(s, t, a);
    CallCounts(s, c, a);
    CallTouches(s, c, a);
    hide CallStep; hide Decode; hide Encode; hide TableSound; hide AllStored; hide Upsert; hide NextRow; hide TaskStep;
    assert Published(ms, c.env) by {
      if t.Ingest? { assert ms[t.message] == Some(c.env); }
    }
    hide Published;
    if c.pc.Record? { UpsertSound(ms, s.rows, c.env, c.pc.reason); }
    assert TableSound(ms, TaskStep(s, t, a).0.rows);
    if t.Replay? {
      NextRowFits(ms, t.phase.left, t.phase.replayed, t.trigger, t.category);
      assert Stored(ms, t.phase.row);
    }
  }

  // --- Runs ---

  lemma MoreMessages(ms: Messages, m: Option<Envelope>, t: Task)
    ensures forall e | Published(ms, e) :: Published(ms + [m], e)
    ensures forall row | Stored(ms, row) :: Stored(ms + [m], row)
    ensures TaskFits(ms, t) ==> TaskFits(ms + [m], t)
  {
    hide Decode; hide Encode;
  }

  lemma NextSound(st: Sys, a: Action)
    requires Sound(st)
    ensures Sound(Next(st, a))
  {
    match a
    case PublishMessage(content) => PublishSound(st, content);
    case Act(i, answer) => if i < |st.tasks| { ActSound(st, i, answer); }
    case _ => hide Stored;
  }

  lemma PublishSound(st: Sys, content: Option<Envelope>)
    requires Sound(st)
    ensures Sound(Next(st, PublishMessage(content)))
  {
    var st' := Next(st, PublishMessage(content));
    hide Next;
    if st' != st {
      assert st' == st.(messages := st.messages + [content]) by { PublishAppends(st, content); }
      hide Stored; hide Published; hide TaskFits; hide DistinctRows;
      forall i | 0 <= i < |st.tasks| ensures TaskFits(st'.messages, st.tasks[i]) {
        MoreMessages(st.messages, content, st.tasks[i]);
      }
      MoreMessages(st.messages, content, Ingest(0, Settled));
      assert UniqueIds(st'.messages) by { PublishAppends(st, content); }
    }
  }

  lemma PublishAppends(st: Sys, content: Option<Envelope>)
    requires UniqueIds(st.messages)
    ensures var st' := Next(st, PublishMessage(content));
      st' == st || (st' == st.(messages := st.messages + [content]) && UniqueIds(st'.messages))
  {
  }

  lemma ActSound(st: Sys, i: nat, a: Answer)
    requires Sound(st) && i < |st.tasks|
    ensures Sound(ActOf(st, i, a))
  {
    var t := st.tasks[i];
    if CallOf(t).Some? {
      CallingFits(st.s, st.messages, t, a);
    } else {
      IdleFits(st.s, st.messages, t, a);
      IdleStep(st.s, t, a);
    }
    hide TaskStep; hide TaskFits; hide Stored; hide Published; hide DistinctRows; hide CallStep;
  }

  // Main result: in every run there is at most one row per event id, and what is stored under it
  // decodes to the published envelope with that id; so no replay ever meets an unparseable row.
  lemma {:induction false} EveryRunSound(lokiSet: bool, actions: seq<Action>)
    ensures Sound(Run(lokiSet, actions))
  {
    if actions != [] {
      EveryRunSound(lokiSet, actions[..|actions| - 1]);
      NextSound(Run(lokiSet, actions[..|actions| - 1]), actions[|actions| - 1]);
    }
  }
}
