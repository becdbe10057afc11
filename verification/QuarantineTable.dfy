/**
 The quarantine_events table (internal/normalizer/store.go:85-101 and 141-172). Rows are kept
 in order of creation; each function is one SQL statement.
 */
module QuarantineTable {
  import opened Prelude
  import opened Json
  import opened Envelopes

  datatype Reason = UnknownCategory | SchemaValidationFailed(version: nat) | UnparseableStored

  datatype RowStatus = PendingReplay | Replayed

  datatype QRow = QRow(id: string, raw: Payload, reason: Reason, status: RowStatus, attempts: nat)

  // Index of the row with this id, or |rows|.
  function IndexOf(rows: seq<QRow>, id: string): (i: nat)
    ensures i <= |rows|
    ensures i < |rows| ==> rows[i].id == id
    ensures forall j | 0 <= j < i :: rows[j].id != id
  {
    if rows == [] || rows[0].id == id then 0 else 1 + IndexOf(rows[1..], id)
  }

  predicate HasRow(rows: seq<QRow>, id: string) {
    IndexOf(rows, id) < |rows|
  }

  // INSERT ... ON CONFLICT (id) DO UPDATE: the status and the stored payload stay.
  function Upsert(rows: seq<QRow>, e: Envelope, reason: Reason): seq<QRow> {
    var i := IndexOf(rows, e.eventId);
    if i < |rows|
    then rows[i := rows[i].(attempts := rows[i].attempts + 1, reason := reason)]
    else rows + [QRow(e.eventId, Encode(e), reason, PendingReplay, 0)]
  }

  function Mark(rows: seq<QRow>, id: string): seq<QRow> {
    var i := IndexOf(rows, id);
    if i < |rows| then rows[i := rows[i].(status := Replayed)] else rows
  }

  function Bump(rows: seq<QRow>, id: string, reason: Reason): seq<QRow> {
    var i := IndexOf(rows, id);
    if i < |rows| then rows[i := rows[i].(attempts := rows[i].attempts + 1, reason := reason)] else rows
  }

  predicate IsPending(row: QRow, category: string) {
    row.status == PendingReplay && CategoryText(row.raw) == Some(category)
  }

  // SELECT ... WHERE status = 'pending' AND raw_payload->>'category' = $1 ORDER BY created_at
  function PendingOf(rows: seq<QRow>, category: string): seq<QRow> {
    if rows == [] then []
    else
      PendingOf(rows[..|rows| - 1], category)
      + if IsPending(rows[|rows| - 1], category) then [rows[|rows| - 1]] else []
  }

  // At most one row per event id.
  ghost predicate DistinctRows(rows: seq<QRow>) {
    forall i, j | 0 <= i < j < |rows| :: rows[i].id != rows[j].id
  }

  lemma IndexOfUnique(rows: seq<QRow>, i: nat)
    requires DistinctRows(rows) && i < |rows|
    ensures IndexOf(rows, rows[i].id) == i
  {
  }

  lemma UpsertKeepsDistinct(rows: seq<QRow>, e: Envelope, reason: Reason)
    requires DistinctRows(rows)
    ensures DistinctRows(Upsert(rows, e, reason))
  {
  }

  lemma {:induction false} PendingMembers(rows: seq<QRow>, category: string)
    ensures forall r :: r in PendingOf(rows, category) <==> r in rows && IsPending(r, category)
    ensures |PendingOf(rows, category)| <= |rows|
  {
    if rows != [] {
      PendingMembers(rows[..|rows| - 1], category);
      assert rows == rows[..|rows| - 1] + [rows[|rows| - 1]];
    }
  }

  // What the statements do, row by row, as ids are a primary key.
  lemma UpsertEffect(rows: seq<QRow>, e: Envelope, reason: Reason)
    requires DistinctRows(rows)
    ensures Upserted(rows, Upsert(rows, e, reason), e, reason)
  {
    hide Encode; hide Decode;
    DecodeEncode(e);
    var i := IndexOf(rows, e.eventId);
    if i < |rows| {
      assert forall j | 0 <= j < |rows| && j != i :: rows[j].id != e.eventId;
    }
  }

  // A row with the id gains an attempt and the reason; without one, a new row that stores the
  // envelope waits for its first replay.
  ghost predicate Upserted(rows: seq<QRow>, rows': seq<QRow>, e: Envelope, reason: Reason) {
    if forall j | 0 <= j < |rows| :: rows[j].id != e.eventId then
      && |rows'| == |rows| + 1 && rows'[..|rows|] == rows
      && var row := rows'[|rows|];
      row == QRow(e.eventId, row.raw, reason, PendingReplay, 0) && Decode(row.raw) == Some(e)
    else
      && |rows'| == |rows|
      && forall j | 0 <= j < |rows| :: rows'[j] ==
           if rows[j].id == e.eventId then rows[j].(attempts := rows[j].attempts + 1, reason := reason) else rows[j]
  }

  lemma MarkEffect(rows: seq<QRow>, id: string)
    requires DistinctRows(rows)
    ensures var rows' := Mark(rows, id);
      && |rows'| == |rows|
      && forall j | 0 <= j < |rows| :: rows'[j] == if rows[j].id == id then rows[j].(status := Replayed) else rows[j]
  {
  }

  lemma BumpEffect(rows: seq<QRow>, id: string, reason: Reason)
    requires DistinctRows(rows)
    ensures var rows' := Bump(rows, id, reason);
      && |rows'| == |rows|
      && forall j | 0 <= j < |rows| :: rows'[j] ==
           if rows[j].id == id then rows[j].(attempts := rows[j].attempts + 1, reason := reason) else rows[j]
  {
  }

  // A stored envelope of the category that has not been replayed yet.
  ghost predicate Waits(row: QRow, category: string) {
    && row.status == PendingReplay
    && Decode(row.raw).Some? && Decode(row.raw).value.category == category
  }

  // The places of the rows that wait for the category, in order of creation: those whose stored
  // category is this text and whose status is pending.
  ghost predicate PlacesOf(at: seq<nat>, rows: seq<QRow>, category: string) {
    && (forall k | 0 <= k < |at| :: at[k] < |rows|)
    && (forall k, l | 0 <= k < l < |at| :: at[k] < at[l])
    && (forall i | 0 <= i < |rows| :: i in at <==> HasCategory(rows[i], category))
  }

  ghost predicate HasCategory(row: QRow, category: string) {
    row.status == PendingReplay && "category" in row.raw && row.raw["category"] == Str(category)
  }

  lemma HasCategoryIff(row: QRow, category: string)
    ensures HasCategory(row, category) <==> IsPending(row, category)
    ensures Waits(row, category) && category != "" ==> HasCategory(row, category)
    ensures Decode(row.raw).Some? && HasCategory(row, category) ==> Waits(row, category)
  {
  }

  lemma PlacesOfLonger(before: seq<nat>, rows: seq<QRow>, row: QRow, category: string)
    requires PlacesOf(before, rows, category)
    ensures PlacesOf(if IsPending(row, category) then before + [|rows|] else before, rows + [row], category)
  {
    HasCategoryIff(row, category);
    hide IsPending; hide HasCategory; hide Waits;
    var at := if IsPending(row, category) then before + [|rows|] else before;
    forall i | 0 <= i < |rows + [row]| ensures i in at <==> HasCategory((rows + [row])[i], category) {
      assert i in at <==> i in before || (i == |rows| && IsPending(row, category));
      assert i < |rows| ==> (rows + [row])[i] == rows[i];
    }
  }

  ghost predicate TakenFrom(taken: seq<QRow>, rows: seq<QRow>, at: seq<nat>) {
    |at| == |taken| && forall k | 0 <= k < |at| :: at[k] < |rows| && rows[at[k]] == taken[k]
  }

  lemma TakenFromLonger(taken: seq<QRow>, rows: seq<QRow>, at: seq<nat>, row: QRow)
    requires TakenFrom(taken, rows, at)
    ensures TakenFrom(taken, rows + [row], at)
    ensures TakenFrom(taken + [row], rows + [row], at + [|rows|])
  {
  }

  lemma PendingOfLonger(rows: seq<QRow>, row: QRow, category: string)
    ensures PendingOf(rows + [row], category) ==
      if IsPending(row, category) then PendingOf(rows, category) + [row] else PendingOf(rows, category)
  {
    hide IsPending;
    assert (rows + [row])[..|rows|] == rows;
  }

  // Each pending row is fetched once, the oldest first.
  lemma {:induction false} PendingInOrder(rows: seq<QRow>, category: string) returns (at: seq<nat>)
    ensures PlacesOf(at, rows, category) && TakenFrom(PendingOf(rows, category), rows, at)
  {
    at := [];
    if rows != [] {
      var init, last := rows[..|rows| - 1], rows[|rows| - 1];
      var before := PendingInOrder(init, category);
      hide *;
      assert init + [last] == rows;
      PendingOfLonger(init, last, category);
      PlacesOfLonger(before, init, last, category);
      TakenFromLonger(PendingOf(init, category), init, before, last);
      at := if IsPending(last, category) then before + [|init|] else before;
    }
  }

  // `waiting` are the rows that wait for the category, each once, in order of creation.
  ghost predicate WaitingRows(waiting: seq<QRow>, rows: seq<QRow>, category: string) {
    exists at: seq<nat> :: TakenFrom(waiting, rows, at) && WaitPlaces(at, rows, category)
  }

  ghost predicate WaitPlaces(at: seq<nat>, rows: seq<QRow>, category: string) {
    && (forall k, l | 0 <= k < l < |at| :: at[k] < at[l])
    && (forall i | 0 <= i < |rows| :: i in at <==> Waits(rows[i], category))
  }

  // The statement fetches just these if every row stores an envelope.
  lemma PendingWaits(rows: seq<QRow>, category: string)
    requires forall i | 0 <= i < |rows| :: IsPending(rows[i], category) <==> Waits(rows[i], category)
    ensures WaitingRows(PendingOf(rows, category), rows, category)
  {
    var at := PendingInOrder(rows, category);
    hide Waits; hide HasCategory; hide TakenFrom; hide PendingOf; hide IsPending;
    forall i | 0 <= i < |rows| ensures i in at <==> Waits(rows[i], category) { HasCategoryIff(rows[i], category); }
    assert WaitPlaces(at, rows, category);
  }

  lemma {:induction false} PendingDistinct(rows: seq<QRow>, category: string)
    requires DistinctRows(rows)
    ensures DistinctRows(PendingOf(rows, category))
  {
    if rows != [] {
      var init := rows[..|rows| - 1];
      PendingDistinct(init, category);
      PendingMembers(init, category);
      forall i | 0 <= i < |PendingOf(init, category)| ensures PendingOf(init, category)[i].id != rows[|rows| - 1].id {
        assert PendingOf(init, category)[i] in init;
      }
    }
  }

  lemma {:induction false} NothingPending(rows: seq<QRow>, category: string)
    requires forall i | 0 <= i < |rows| :: !IsPending(rows[i], category)
    ensures PendingOf(rows, category) == []
  {
    if rows != [] { NothingPending(rows[..|rows| - 1], category); }
  }
}
