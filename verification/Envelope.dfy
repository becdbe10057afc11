/**
 The message the gateway and the webhook adapter publish, and its JSON form
 (internal/normalizer/store.go:16-26).
 */
module Envelopes {
  import opened Prelude
  import opened Json

  // Timestamps are kept in their textual form. A null payload is None.
  datatype Envelope = Envelope(
    eventId: string,
    agentId: string,
    agentSlug: string,
    category: string,
    source: string,
    timestamp: string,
    payload: Option<Payload>,
    receivedAt: string)

  function Encode(e: Envelope): Payload {
    map[
      "event_id" := Str(e.eventId),
      "agent_id" := Str(e.agentId),
      "agent_slug" := Str(e.agentSlug),
      "category" := Str(e.category),
      "source" := Str(e.source),
      "timestamp" := Str(e.timestamp),
      "payload" := if e.payload.Some? then Obj(e.payload.value) else Null,
      "received_at" := Str(e.receivedAt)
    ]
  }

  // A string field of the Go struct: an absent or null field leaves it empty, any other
  // type fails the decoding.
  function StringField(raw: Payload, name: string): Option<string> {
    if name !in raw || raw[name] == Null then Some("")
    else if raw[name].Str? then Some(raw[name].s)
    else None
  }

  function PayloadField(raw: Payload): Option<Option<Payload>> {
    if "payload" !in raw || raw["payload"] == Null then Some(None)
    else if raw["payload"].Obj? then Some(Some(raw["payload"].fields))
    else None
  }

  function Decode(raw: Payload): Option<Envelope> {
    var eventId, agentId := StringField(raw, "event_id"), StringField(raw, "agent_id");
    var agentSlug, category := StringField(raw, "agent_slug"), StringField(raw, "category");
    var source, timestamp := StringField(raw, "source"), StringField(raw, "timestamp");
    var payload, receivedAt := PayloadField(raw), StringField(raw, "received_at");
    if eventId.None? || agentId.None? || agentSlug.None? || category.None? || source.None?
       || timestamp.None? || payload.None? || receivedAt.None?
    then None
    else Some(Envelope(eventId.value, agentId.value, agentSlug.value, category.value, source.value,
                       timestamp.value, payload.value, receivedAt.value))
  }

  // raw_payload->>'category'
  function CategoryText(raw: Payload): Option<string> {
    if "category" in raw && raw["category"].Str? then Some(raw["category"].s) else None
  }

  // What decoding means, field by field: a string field is the text it has, or empty if it is absent
  // or null; the payload is the object it has, or none.
  predicate TextIs(raw: Payload, name: string, s: string) {
    if name in raw && !raw[name].Null? then raw[name] == Str(s) else s == ""
  }

  predicate PayloadIs(raw: Payload, payload: Option<Payload>) {
    if "payload" in raw && !raw["payload"].Null? then payload.Some? && raw["payload"] == Obj(payload.value)
    else payload == None
  }

  lemma DecodeMeans(raw: Payload, e: Envelope)
    ensures Decode(raw) == Some(e) <==>
      && TextIs(raw, "event_id", e.eventId) && TextIs(raw, "agent_id", e.agentId)
      && TextIs(raw, "agent_slug", e.agentSlug) && TextIs(raw, "category", e.category)
      && TextIs(raw, "source", e.source) && TextIs(raw, "timestamp", e.timestamp)
      && TextIs(raw, "received_at", e.receivedAt) && PayloadIs(raw, e.payload)
  {
    forall name, s ensures StringField(raw, name) == Some(s) <==> TextIs(raw, name, s) { TextIff(raw, name, s); }
    hide StringField; hide TextIs;
  }

  lemma TextIff(raw: Payload, name: string, s: string)
    ensures StringField(raw, name) == Some(s) <==> TextIs(raw, name, s)
  {
  }

  lemma DecodeEncode(e: Envelope)
    ensures Decode(Encode(e)) == Some(e)
    ensures CategoryText(Encode(e)) == Some(e.category)
  {
  }
}
