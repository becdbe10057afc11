/**
 Shape clustering and JSON Schema inference (classifier/app/schema_infer.py:14-62), with the
 validator fragment the inferred schemas need: `type`, `required` and `properties`
 (sections 6.1.1, 6.5.3 and 6.5.4 of JSON Schema Validation draft-07).
 */
module SchemaInference {
  import opened Json
  import opened Prelude

  // The type names, declared in the order in which Python sorts them.
  datatype Tag = TArray | TBoolean | TInteger | TNull | TNumber | TObject | TString

  function TypeName(v: Json): Tag {
    match v
    case Null => TNull
    case Bool(_) => TBoolean
    case Int(_) => TInteger
    case Float(_) => TNumber
    case Str(_) => TString
    case Arr(_) => TArray
    case Obj(_) => TObject
  }

  // A `type` keyword: a single name, or a sorted list of names.
  datatype TypeSpec = One(tag: Tag) | AnyOf(tags: seq<Tag>)

  datatype Schema =
    | AnyObject                                                              // {"type": "object"}
    | Fields(required: seq<string>, properties: map<string, TypeSpec>)
    | Unusable                                                               // the validator cannot load it

  // --- Validation ---

  predicate TagAccepts(declared: Tag, actual: Tag) {
    declared == actual || (declared == TNumber && actual == TInteger)
  }

  function SpecTags(t: TypeSpec): set<Tag> {
    match t
    case One(tag) => {tag}
    case AnyOf(tags) => set tag | tag in tags
  }

  predicate SpecAccepts(t: TypeSpec, actual: Tag) {
    exists declared | declared in SpecTags(t) :: TagAccepts(declared, actual)
  }

  predicate Accepts(schema: Schema, p: Payload) {
    match schema
    case AnyObject => true
    case Fields(required, properties) =>
      && (forall k | k in required :: k in p)
      && (forall k | k in properties && k in p :: SpecAccepts(properties[k], TypeName(p[k])))
    case Unusable => false
  }

  // --- What validation means, in terms of JSON values ---

  // The value is of a type with this name; an integer is a number too.
  predicate OfType(v: Json, tag: Tag) {
    match tag
    case TArray => v.Arr?
    case TBoolean => v.Bool?
    case TInteger => v.Int?
    case TNull => v.Null?
    case TNumber => v.Int? || v.Float?
    case TObject => v.Obj?
    case TString => v.Str?
  }

  predicate Declares(spec: TypeSpec, v: Json) {
    match spec
    case One(tag) => OfType(v, tag)
    case AnyOf(tags) => exists tag | tag in tags :: OfType(v, tag)
  }

  // The payload is an object, has every required field, and each declared field that it has holds
  // a value of a declared type.
  predicate Conforms(document: Schema, payload: Option<Payload>) {
    && payload.Some?
    && match document
       case AnyObject => true
       case Fields(required, properties) =>
         && (forall k | k in required :: k in payload.value)
         && (forall k | k in properties && k in payload.value :: Declares(properties[k], payload.value[k]))
       case Unusable => false
  }

  lemma DeclaresIff(spec: TypeSpec, v: Json)
    ensures SpecAccepts(spec, TypeName(v)) <==> Declares(spec, v)
  {
    forall tag ensures TagAccepts(tag, TypeName(v)) <==> OfType(v, tag) {}
    hide OfType; hide TypeName; hide TagAccepts;
    match spec
    case One(tag) => assert tag in SpecTags(spec);
    case AnyOf(tags) => assert forall tag :: tag in SpecTags(spec) <==> tag in tags;
  }

  lemma AcceptsIff(document: Schema, p: Payload)
    ensures Accepts(document, p) <==> Conforms(document, Some(p))
  {
    hide SpecAccepts; hide Declares; hide TypeName;
    if document.Fields? {
      forall k | k in document.properties && k in p
        ensures SpecAccepts(document.properties[k], TypeName(p[k])) <==> Declares(document.properties[k], p[k])
      {
        DeclaresIff(document.properties[k], p[k]);
      }
    }
  }

  // --- Shapes ---

  // The fingerprint, before hashing: sorted fields with their type names.
  function ShapeKey(p: Payload): seq<(string, Tag)> {
    var ks := SortedKeys(p.Keys);
    seq(|ks|, i requires 0 <= i < |ks| => assert ks[i] in ks; (ks[i], TypeName(p[ks[i]])))
  }

  // Two values of one JSON type, integers and other numbers being two.
  predicate SameType(v: Json, w: Json) {
    && (v.Null? <==> w.Null?) && (v.Bool? <==> w.Bool?) && (v.Int? <==> w.Int?) && (v.Float? <==> w.Float?)
    && (v.Str? <==> w.Str?) && (v.Arr? <==> w.Arr?) && (v.Obj? <==> w.Obj?)
  }

  lemma SameTypeIff(v: Json, w: Json)
    ensures TypeName(v) == TypeName(w) <==> SameType(v, w)
  {
  }

  // The same fields with the same types of values.
  ghost predicate SameShape(p: Payload, q: Payload) {
    p.Keys == q.Keys && forall k | k in p :: SameType(p[k], q[k])
  }

  ghost predicate SameTags(p: Payload, q: Payload) {
    p.Keys == q.Keys && forall k | k in p :: TypeName(p[k]) == TypeName(q[k])
  }

  lemma SameShapeIff(p: Payload, q: Payload)
    ensures SameShape(p, q) <==> SameTags(p, q)
  {
    hide SameType; hide TypeName;
    if p.Keys == q.Keys {
      forall k | k in p ensures TypeName(p[k]) == TypeName(q[k]) <==> SameType(p[k], q[k]) {
        SameTypeIff(p[k], q[k]);
      }
    }
  }

  // Two payloads fall into one cluster exactly when they have the same fields with the same types.
  lemma ShapeKeyIsShape(p: Payload, q: Payload)
    ensures ShapeKey(p) == ShapeKey(q) <==> SameShape(p, q)
  {
    SameShapeIff(p, q);
    hide SameShape; hide SameTags;
    ShapeKeyIsTags(p, q);
  }

  lemma ShapeKeyIsTags(p: Payload, q: Payload)
    ensures ShapeKey(p) == ShapeKey(q) <==> SameTags(p, q)
  {
    var ks, ls := SortedKeys(p.Keys), SortedKeys(q.Keys);
    if ShapeKey(p) == ShapeKey(q) {
      assert |ks| == |ShapeKey(p)| == |ls|;
      forall i | 0 <= i < |ks| ensures ks[i] == ls[i] && TypeName(p[ks[i]]) == TypeName(q[ls[i]]) {
        assert ks[i] in ks && ls[i] in ls;
        assert ShapeKey(p)[i] == ShapeKey(q)[i];
      }
      assert ks == ls;
      forall k ensures k in p.Keys <==> k in q.Keys {
        assert k in ks <==> k in ls;
      }
      forall k | k in p ensures TypeName(p[k]) == TypeName(q[k]) {
        assert k in ks;
        var i :| 0 <= i < |ks| && ks[i] == k;
      }
    } else if SameTags(p, q) {
      assert ks == ls;
      forall i | 0 <= i < |ks| ensures ShapeKey(p)[i] == ShapeKey(q)[i] {
        assert ks[i] in ks;
      }
      assert false;
    }
  }

  // --- Inference ---

  function FieldsOf(ps: seq<Payload>): set<string> {
    set p, k | p in ps && k in p.Keys :: k
  }

  function TagsOf(ps: seq<Payload>, k: string): set<Tag> {
    set p | p in ps && k in p :: TypeName(p[k])
  }

  predicate InAll(ps: seq<Payload>, k: string) {
    forall p | p in ps :: k in p
  }

  const ALL_TAGS: seq<Tag> := [TArray, TBoolean, TInteger, TNull, TNumber, TObject, TString]

  function Pick(order: seq<Tag>, types: set<Tag>): (r: seq<Tag>)
    ensures forall t :: t in r <==> t in order && t in types
  {
    if order == [] then [] else (if order[0] in types then [order[0]] else []) + Pick(order[1..], types)
  }

  // {"type": name} for one name, the sorted list otherwise.
  function MakeSpec(types: set<Tag>): (t: TypeSpec)
    ensures SpecTags(t) == types
  {
    var tags := Pick(ALL_TAGS, types);
    assert forall t: Tag :: t in ALL_TAGS by { AllTags(); }
    if |tags| == 1 then One(tags[0]) else AnyOf(tags)
  }

  lemma AllTags()
    ensures forall t: Tag :: t in ALL_TAGS
  {
    forall t: Tag ensures t in ALL_TAGS {
      match t
      case TArray => assert ALL_TAGS[0] == t;
      case TBoolean => assert ALL_TAGS[1] == t;
      case TInteger => assert ALL_TAGS[2] == t;
      case TNull => assert ALL_TAGS[3] == t;
      case TNumber => assert ALL_TAGS[4] == t;
      case TObject => assert ALL_TAGS[5] == t;
      case TString => assert ALL_TAGS[6] == t;
    }
  }

  // The fields present in every sample.
  function RequiredOf(ps: seq<Payload>): set<string> {
    set k | k in FieldsOf(ps) && InAll(ps, k)
  }

  function PropertiesOf(ps: seq<Payload>): map<string, TypeSpec> {
    map k | k in FieldsOf(ps) :: MakeSpec(TagsOf(ps, k))
  }

  // What infer_schema returns, read off the samples without running through them.
  function Infer(ps: seq<Payload>): Schema {
    if ps == [] then AnyObject else Fields(SortedKeys(RequiredOf(ps)), PropertiesOf(ps))
  }

  ghost function SamplesWith(ps: seq<Payload>, k: string): nat {
    if ps == [] then 0 else SamplesWith(ps[..|ps| - 1], k) + if k in ps[|ps| - 1] then 1 else 0
  }

  lemma {:induction false} CountIsLengthIffInAll(ps: seq<Payload>, k: string)
    ensures SamplesWith(ps, k) <= |ps|
    ensures SamplesWith(ps, k) == |ps| <==> InAll(ps, k)
    ensures SamplesWith(ps, k) > 0 <==> k in FieldsOf(ps)
  {
    if ps != [] {
      var last := |ps| - 1;
      CountIsLengthIffInAll(ps[..last], k);
      assert ps == ps[..last] + [ps[last]];
      assert forall p :: p in ps <==> p in ps[..last] || p == ps[last];
    }
  }

  // The running dictionaries of infer_schema once the samples ps and, of one more sample p,
  // the fields in `done` have been seen.
  ghost predicate Tallied(keys: map<string, set<Tag>>, counts: map<string, nat>, ps: seq<Payload>, p: Payload,
                          done: set<string>)
    requires done <= p.Keys
  {
    && keys.Keys == counts.Keys == FieldsOf(ps) + done
    && (forall k | k in keys :: keys[k] == TagsOf(ps, k) + if k in done then {TypeName(p[k])} else {})
    && (forall k | k in counts :: counts[k] == SamplesWith(ps, k) + if k in done then 1 else 0)
  }

  lemma OneMoreSample(ps: seq<Payload>, p: Payload, k: string)
    ensures k in FieldsOf(ps + [p]) <==> k in FieldsOf(ps) || k in p
    ensures TagsOf(ps + [p], k) == TagsOf(ps, k) + if k in p then {TypeName(p[k])} else {}
    ensures InAll(ps + [p], k) <==> InAll(ps, k) && k in p
    ensures SamplesWith(ps + [p], k) == SamplesWith(ps, k) + if k in p then 1 else 0
  {
    var all := ps + [p];
    assert all[..|all| - 1] == ps && all[|all| - 1] == p;
    MoreSamples(ps, [p], k);
    assert forall q :: q in [p] <==> q == p;
    assert TagsOf([p], k) == if k in p then {TypeName(p[k])} else {};
  }

  lemma MoreSamples(ps: seq<Payload>, qs: seq<Payload>, k: string)
    ensures k in FieldsOf(ps + qs) <==> k in FieldsOf(ps) || k in FieldsOf(qs)
    ensures TagsOf(ps + qs, k) == TagsOf(ps, k) + TagsOf(qs, k)
    ensures InAll(ps + qs, k) <==> InAll(ps, k) && InAll(qs, k)
  {
    assert forall p :: p in ps + qs <==> p in ps || p in qs;
  }

  lemma TalliedNext(keys: map<string, set<Tag>>, counts: map<string, nat>, ps: seq<Payload>, p: Payload)
    requires Tallied(keys, counts, ps, p, p.Keys)
    ensures Tallied(keys, counts, ps + [p], map[], {})
  {
    var all := ps + [p];
    hide FieldsOf; hide TagsOf; hide SamplesWith; hide InAll;
    forall k ensures k in FieldsOf(all) <==> k in FieldsOf(ps) + p.Keys { OneMoreSample(ps, p, k); }
    assert keys.Keys == FieldsOf(all) + {};
    forall k | k in keys ensures keys[k] == TagsOf(all, k) + {} && counts[k] == SamplesWith(all, k) + 0 {
      OneMoreSample(ps, p, k);
    }
  }

  lemma TalliedStep(keys: map<string, set<Tag>>, counts: map<string, nat>, ps: seq<Payload>, p: Payload,
                    done: set<string>, k: string)
    requires done <= p.Keys && k in p.Keys - done && Tallied(keys, counts, ps, p, done)
    ensures var keys' := keys[k := (if k in keys then keys[k] else {}) + {TypeName(p[k])}];
      var counts' := counts[k := (if k in counts then counts[k] else 0) + 1];
      Tallied(keys', counts', ps, p, done + {k})
  {
    hide FieldsOf; hide TagsOf; hide SamplesWith; hide InAll;
    CountIsLengthIffInAll(ps, k);
    NoTagsOutsideFields(ps, k);
  }

  lemma TalliedStart(keys: map<string, set<Tag>>, counts: map<string, nat>, ps: seq<Payload>, p: Payload)
    requires Tallied(keys, counts, ps, map[], {})
    ensures Tallied(keys, counts, ps, p, {})
  {
    hide FieldsOf; hide TagsOf; hide SamplesWith;
  }

  lemma NothingTallied()
    ensures Tallied(map[], map[], [], map[], {})
  {
  }

  method InferSchema(payloads: seq<Payload>) returns (schema: Schema)
    ensures schema == Infer(payloads)
  {
    if payloads == [] {
      return AnyObject;
    }
    hide FieldsOf; hide TagsOf; hide SamplesWith; hide MakeSpec;
    var keys: map<string, set<Tag>> := map[];
    var counts: map<string, nat> := map[];
    NothingTallied();
    hide Tallied;
    for n := 0 to |payloads|
      invariant Tallied(keys, counts, payloads[..n], map[], {})
    {
      var p := payloads[n];
      keys, counts := TallySample(keys, counts, payloads[..n], p);
      assert payloads[..n + 1] == payloads[..n] + [p];
    }
    assert payloads[..|payloads|] == payloads;
    var properties := BuildProperties(keys);
    var everywhere := set k | k in counts && counts[k] == |payloads|;
    FinishedTally(payloads, keys, counts, properties);
    schema := Fields(SortedKeys(everywhere), properties);
  }

  // The loop over sorted(keys.items()).
  method BuildProperties(keys: map<string, set<Tag>>) returns (properties: map<string, TypeSpec>)
    ensures properties.Keys == keys.Keys
    ensures forall k | k in properties :: properties[k] == MakeSpec(keys[k])
  {
    hide MakeSpec;
    properties := map[];
    var order := SortedKeys(keys.Keys);
    for n := 0 to |order|
      invariant forall k | k in properties :: k in keys && properties[k] == MakeSpec(keys[k])
      invariant forall i | 0 <= i < n :: order[i] in properties
    {
      var k := order[n];
      properties := properties[k := MakeSpec(keys[k])];
    }
    forall k | k in keys ensures k in properties {
      assert k in order;
    }
  }

  // The inner loop of infer_schema: the fields of one sample, in any order.
  method TallySample(keys0: map<string, set<Tag>>, counts0: map<string, nat>, ghost before: seq<Payload>, p: Payload)
      returns (keys: map<string, set<Tag>>, counts: map<string, nat>)
    requires Tallied(keys0, counts0, before, map[], {})
    ensures Tallied(keys, counts, before + [p], map[], {})
  {
    hide Tallied;
    keys, counts := keys0, counts0;
    var rest := p.Keys;
    TalliedStart(keys, counts, before, p);
    assert p.Keys - rest == {};
    while rest != {}
      invariant rest <= p.Keys
      invariant Tallied(keys, counts, before, p, p.Keys - rest)
      decreases rest
    {
      var k :| k in rest;
      TalliedStep(keys, counts, before, p, p.Keys - rest, k);
      assert p.Keys - rest + {k} == p.Keys - (rest - {k});
      keys := keys[k := (if k in keys then keys[k] else {}) + {TypeName(p[k])}];
      counts := counts[k := (if k in counts then counts[k] else 0) + 1];
      rest := rest - {k};
    }
    assert p.Keys - rest == p.Keys;
    TalliedNext(keys, counts, before, p);
  }

  lemma FinishedTally(ps: seq<Payload>, keys: map<string, set<Tag>>, counts: map<string, nat>,
                      properties: map<string, TypeSpec>)
    requires Tallied(keys, counts, ps, map[], {})
    requires properties.Keys == keys.Keys && forall k | k in properties :: properties[k] == MakeSpec(keys[k])
    ensures (set k | k in counts && counts[k] == |ps|) == RequiredOf(ps)
    ensures properties == PropertiesOf(ps)
  {
    hide FieldsOf; hide TagsOf; hide SamplesWith; hide InAll; hide MakeSpec;
    forall k | k in counts ensures counts[k] == |ps| <==> InAll(ps, k) { CountIsLengthIffInAll(ps, k); }
    forall k | k in keys ensures keys[k] == TagsOf(ps, k) {}
    EqualMaps(properties, PropertiesOf(ps));
  }

  // --- What the inferred schema means ---

  // Every sample is accepted.
  lemma InferSound(ps: seq<Payload>, p: Payload)
    requires p in ps
    ensures Accepts(Infer(ps), p) && Conforms(Infer(ps), Some(p))
  {
    AcceptsIff(Infer(ps), p);
    hide Conforms;
    forall k | k in p ensures SpecAccepts(MakeSpec(TagsOf(ps, k)), TypeName(p[k])) {
      assert TagAccepts(TypeName(p[k]), TypeName(p[k]));
    }
  }

  // Among schemas that constrain only sampled fields, the inferred one is the least that
  // accepts all samples: another one accepts the samples exactly when it accepts everything
  // the inferred one does.
  lemma InferLeast(ps: seq<Payload>, other: Schema)
    requires ps != [] && other.Fields? && other.properties.Keys <= FieldsOf(ps)
    ensures (forall p | p in ps :: Accepts(other, p)) <==> (forall q | Accepts(Infer(ps), q) :: Accepts(other, q))
  {
    if forall p | p in ps :: Accepts(other, p) {
      forall q | Accepts(Infer(ps), q) ensures Accepts(other, q) { InferBelow(ps, other, q); }
    }
    if forall q | Accepts(Infer(ps), q) :: Accepts(other, q) {
      forall p | p in ps ensures Accepts(other, p) {
        InferSound(ps, p);
      }
    }
  }

  lemma InferBelow(ps: seq<Payload>, other: Schema, q: Payload)
    requires ps != [] && other.Fields? && other.properties.Keys <= FieldsOf(ps)
    requires forall p | p in ps :: Accepts(other, p)
    requires Accepts(Infer(ps), q)
    ensures Accepts(other, q)
  {
    assert ps[0] in ps;
    forall k | k in other.required ensures k in q {
      assert k in ps[0] && InAll(ps, k);
      assert k in FieldsOf(ps);
      assert k in Infer(ps).required;
    }
    forall k | k in other.properties && k in q ensures SpecAccepts(other.properties[k], TypeName(q[k])) {
      assert SpecAccepts(PropertiesOf(ps)[k], TypeName(q[k]));
      var sampled :| sampled in TagsOf(ps, k) && TagAccepts(sampled, TypeName(q[k]));
      var p :| p in ps && k in p && TypeName(p[k]) == sampled;
      assert SpecAccepts(other.properties[k], sampled);
      var declared :| declared in SpecTags(other.properties[k]) && TagAccepts(declared, sampled);
      assert TagAccepts(declared, TypeName(q[k]));
    }
  }

  // Only the set of samples matters, so their order and repetitions do not.
  lemma InferOrderIrrelevant(ps: seq<Payload>, qs: seq<Payload>)
    requires forall p :: p in ps <==> p in qs
    ensures Infer(ps) == Infer(qs)
  {
    assert ps == [] <==> qs == [] by {
      assert ps != [] ==> ps[0] in qs;
      assert qs != [] ==> qs[0] in ps;
    }
    if ps != [] {
      assert FieldsOf(ps) == FieldsOf(qs);
      assert forall k :: TagsOf(ps, k) == TagsOf(qs, k);
      assert forall k :: InAll(ps, k) == InAll(qs, k);
      assert RequiredOf(ps) == RequiredOf(qs);
      EqualMaps(PropertiesOf(ps), PropertiesOf(qs));
    }
  }

  function PropertyTags(s: Schema, k: string): set<Tag>
    requires s.Fields?
  {
    if k in s.properties then SpecTags(s.properties[k]) else {}
  }

  // Inference is a join: appending sample lists unites types and intersects required fields.
  lemma InferJoin(ps: seq<Payload>, qs: seq<Payload>)
    requires ps != [] && qs != []
    ensures var s, t, u := Infer(ps), Infer(qs), Infer(ps + qs);
      && u.properties.Keys == s.properties.Keys + t.properties.Keys
      && (forall k :: PropertyTags(u, k) == PropertyTags(s, k) + PropertyTags(t, k))
      && (forall k :: k in u.required <==> k in s.required && k in t.required)
  {
    var all := ps + qs;
    forall k ensures k in FieldsOf(all) <==> k in FieldsOf(ps) + FieldsOf(qs) { MoreSamples(ps, qs, k); }
    forall k ensures PropertyTags(Infer(all), k) == PropertyTags(Infer(ps), k) + PropertyTags(Infer(qs), k) {
      MoreSamples(ps, qs, k);
      NoTagsOutsideFields(ps, k);
      NoTagsOutsideFields(qs, k);
    }
    forall k ensures k in Infer(all).required <==> k in Infer(ps).required && k in Infer(qs).required {
      MoreSamples(ps, qs, k);
      assert ps[0] in ps && qs[0] in qs;
    }
  }

  lemma NoTagsOutsideFields(ps: seq<Payload>, k: string)
    ensures k !in FieldsOf(ps) ==> TagsOf(ps, k) == {}
  {
  }

  ghost predicate OneShape(ps: seq<Payload>) {
    forall p, q | p in ps && q in ps :: SameShape(p, q)
  }

  // Samples of one shape give the schema of any single one of them.
  lemma InferOneShape(ps: seq<Payload>, p: Payload)
    requires OneShape(ps) && p in ps
    ensures Infer(ps) == Infer([p])
  {
    hide SameShape; hide SameTags; hide Infer;
    forall q | q in ps ensures SameTags(p, q) { SameShapeIff(p, q); }
    assert SameTags(p, p) by { SameShapeIff(p, p); }
    OneShapeInfer(ps, p);
    OneShapeInfer([p], p);
  }

  // The schema of a shape: every field required, each with its one type.
  function SchemaOfShape(p: Payload): Schema {
    Fields(SortedKeys(p.Keys), map k | k in p :: MakeSpec({TypeName(p[k])}))
  }

  lemma OneShapeInfer(ps: seq<Payload>, p: Payload)
    requires p in ps && forall q | q in ps :: SameTags(p, q)
    ensures Infer(ps) == SchemaOfShape(p)
  {
    hide FieldsOf; hide TagsOf; hide InAll; hide SameTags; hide MakeSpec; hide SortedKeys; hide TypeName;
    OneShapeFields(ps, p);
    assert RequiredOf(ps) == p.Keys;
    EqualMaps(PropertiesOf(ps), SchemaOfShape(p).properties);
  }

  lemma OneShapeFields(ps: seq<Payload>, p: Payload)
    requires p in ps && forall q | q in ps :: SameTags(p, q)
    ensures FieldsOf(ps) == p.Keys
    ensures forall k | k in p :: InAll(ps, k) && TagsOf(ps, k) == {TypeName(p[k])}
  {
    hide FieldsOf; hide TagsOf; hide InAll; hide SameTags;
    forall k ensures k in FieldsOf(ps) <==> k in p.Keys { OneShapeField(ps, p, k); }
    forall k | k in p ensures InAll(ps, k) && TagsOf(ps, k) == {TypeName(p[k])} { OneShapeField(ps, p, k); }
  }

  lemma OneShapeField(ps: seq<Payload>, p: Payload, k: string)
    requires p in ps && forall q | q in ps :: SameTags(p, q)
    ensures k in FieldsOf(ps) <==> k in p
    ensures k in p ==> InAll(ps, k) && TagsOf(ps, k) == {TypeName(p[k])}
  {
    if k in p {
      assert forall q | q in ps :: k in q && TypeName(q[k]) == TypeName(p[k]);
      assert TypeName(p[k]) in TagsOf(ps, k);
    }
  }

  // A schema inferred from samples of one shape accepts every payload of that shape.
  lemma InferAcceptsShape(ps: seq<Payload>, q: Payload)
    requires ps != [] && forall p | p in ps :: ShapeKey(p) == ShapeKey(q)
    ensures Accepts(Infer(ps), q) && Conforms(Infer(ps), Some(q))
  {
    AcceptsIff(Infer(ps), q);
    hide Conforms; hide SameShape; hide ShapeKey; hide Infer; hide Accepts;
    assert forall p :: p in ps + [q] <==> p in ps || p == q;
    forall p, r | p in ps + [q] && r in ps + [q] ensures SameShape(p, r) { ShapeKeyIsShape(p, r); }
    assert ps[0] in ps && ps[0] in ps + [q] && q in ps + [q];
    InferOneShape(ps, ps[0]);
    InferOneShape(ps + [q], ps[0]);
    InferSound(ps + [q], q);
  }

  // --- The inferred schema, said of payloads ---

  // A sample has the field with a value of the same type; an integer will do for a number.
  ghost predicate SeenLike(ps: seq<Payload>, k: string, v: Json) {
    exists p: Payload | p in ps && k in p :: SameType(p[k], v) || (p[k].Float? && v.Int?)
  }

  // Main result: the schema inferred from samples is met by exactly those payloads that have every
  // field that all samples have, and in each field that some sample has a value like a sample's.
  // Without samples every object will do.
  lemma InferMeaning(ps: seq<Payload>, q: Payload)
    ensures Conforms(Infer(ps), Some(q)) <==>
      || ps == []
      || ((forall k | (forall p | p in ps :: k in p) :: k in q)
          && (forall k | k in q && (exists p | p in ps :: k in p) :: SeenLike(ps, k, q[k])))
  {
    if ps != [] { InferMeaningOfSome(ps, q); }
  }

  lemma InferMeaningOfSome(ps: seq<Payload>, q: Payload)
    requires ps != []
    ensures Conforms(Infer(ps), Some(q)) <==>
      && (forall k | (forall p | p in ps :: k in p) :: k in q)
      && (forall k | k in q && (exists p | p in ps :: k in p) :: SeenLike(ps, k, q[k]))
  {
    AcceptsIff(Infer(ps), q);
    assert Infer(ps).Fields?;
    forall k ensures k in RequiredOf(ps) <==> forall p | p in ps :: k in p { RequiredMeaning(ps, k); }
    forall k | k in q && k in FieldsOf(ps)
      ensures SpecAccepts(PropertiesOf(ps)[k], TypeName(q[k])) <==> SeenLike(ps, k, q[k])
    {
      PropertyMeaning(ps, k, q[k]);
    }
    forall k ensures k in FieldsOf(ps) <==> exists p | p in ps :: k in p {}
    hide Conforms; hide SeenLike; hide SpecAccepts; hide TypeName; hide FieldsOf; hide RequiredOf;
    hide MakeSpec; hide TagsOf;
  }

  lemma RequiredMeaning(ps: seq<Payload>, k: string)
    requires ps != []
    ensures k in RequiredOf(ps) <==> forall p | p in ps :: k in p
  {
    assert ps[0] in ps;
  }

  lemma LikeIff(v: Json, w: Json)
    ensures TagAccepts(TypeName(v), TypeName(w)) <==> SameType(v, w) || (v.Float? && w.Int?)
  {
  }

  lemma PropertyMeaning(ps: seq<Payload>, k: string, v: Json)
    requires k in FieldsOf(ps)
    ensures SpecAccepts(PropertiesOf(ps)[k], TypeName(v)) <==> SeenLike(ps, k, v)
  {
    assert SpecTags(PropertiesOf(ps)[k]) == TagsOf(ps, k);
    forall w ensures TagAccepts(TypeName(w), TypeName(v)) <==> SameType(w, v) || (w.Float? && v.Int?) { LikeIff(w, v); }
    hide TypeName; hide TagAccepts; hide SameType; hide MakeSpec; hide FieldsOf;
    if SpecAccepts(PropertiesOf(ps)[k], TypeName(v)) {
      var tag :| tag in TagsOf(ps, k) && TagAccepts(tag, TypeName(v));
      var p :| p in ps && k in p && TypeName(p[k]) == tag;
      assert SeenLike(ps, k, v);
    }
    if SeenLike(ps, k, v) {
      var p: Payload :| p in ps && k in p && (SameType(p[k], v) || (p[k].Float? && v.Int?));
      assert TypeName(p[k]) in TagsOf(ps, k);
    }
  }

  // The name of a type in a schema document.
  function TagText(tag: Tag): string {
    match tag
    case TArray => "array"
    case TBoolean => "boolean"
    case TInteger => "integer"
    case TNull => "null"
    case TNumber => "number"
    case TObject => "object"
    case TString => "string"
  }

  ghost predicate SortedTags(tags: seq<Tag>) {
    forall i, j | 0 <= i < j < |tags| :: Below(TagText(tags[i]), TagText(tags[j]))
  }

  // One type is written as its name, any other number of types as the sorted list of their names.
  lemma MakeSpecForm(types: set<Tag>)
    ensures var spec := MakeSpec(types);
      && SpecTags(spec) == types
      && (spec.One? <==> |types| == 1)
      && (spec.AnyOf? ==> SortedTags(spec.tags))
  {
    AllTagsSorted();
    PickSorted(ALL_TAGS, types);
    var tags := Pick(ALL_TAGS, types);
    assert forall t: Tag :: t in ALL_TAGS by { AllTags(); }
    hide Pick;
    DistinctSize(tags, types);
  }

  lemma AllTagsSorted()
    ensures SortedTags(ALL_TAGS)
  {
    assert Below("array", "boolean") && Below("boolean", "integer") && Below("integer", "null");
    assert "null"[1..][1..] == "ll" && "number"[1..][1..] == "mber" && Below("ll", "mber");
    assert Below("null"[1..], "number"[1..]);
    assert Below("number", "object") && Below("object", "string");
    hide Below;
    forall i | 0 <= i < 6 ensures Below(TagText(ALL_TAGS[i]), TagText(ALL_TAGS[i + 1])) {
      assert i == 0 || i == 1 || i == 2 || i == 3 || i == 4 || i == 5;
    }
    hide TagText;
    NeighboursSorted(ALL_TAGS);
  }

  lemma {:induction false} NeighboursSorted(tags: seq<Tag>)
    requires forall i | 0 <= i < |tags| - 1 :: Below(TagText(tags[i]), TagText(tags[i + 1]))
    ensures SortedTags(tags)
  {
    hide Below; hide TagText;
    if |tags| > 1 {
      var last := |tags| - 1;
      NeighboursSorted(tags[..last]);
      forall i | 0 <= i < last ensures Below(TagText(tags[i]), TagText(tags[last])) {
        if i < last - 1 {
          assert Below(TagText(tags[..last][i]), TagText(tags[..last][last - 1]));
          assert Below(TagText(tags[last - 1]), TagText(tags[last - 1 + 1]));
          BelowTransitive(TagText(tags[i]), TagText(tags[last - 1]), TagText(tags[last]));
        } else {
          assert Below(TagText(tags[i]), TagText(tags[i + 1]));
        }
      }
      forall i, j | 0 <= i < j < last ensures Below(TagText(tags[i]), TagText(tags[j])) {
        assert Below(TagText(tags[..last][i]), TagText(tags[..last][j]));
      }
    }
  }

  lemma {:induction false} PickSorted(order: seq<Tag>, types: set<Tag>)
    requires SortedTags(order)
    ensures SortedTags(Pick(order, types))
  {
    hide Below; hide TagText;
    if order != [] {
      PickSorted(order[1..], types);
      var rest := Pick(order[1..], types);
      forall j | 0 <= j < |rest| ensures Below(TagText(order[0]), TagText(rest[j])) {
        assert rest[j] in rest;
      }
    }
  }

  lemma {:induction false} DistinctSize(tags: seq<Tag>, types: set<Tag>)
    requires SortedTags(tags) && forall t :: t in tags <==> t in types
    ensures |tags| == |types|
  {
    if tags == [] {
      assert types == {};
    } else {
      var last, init := tags[|tags| - 1], tags[..|tags| - 1];
      assert tags == init + [last];
      assert last !in init by {
        forall i | 0 <= i < |init| ensures init[i] != last {
          BelowTotal(TagText(tags[i]), TagText(last));
        }
      }
      DistinctSize(init, types - {last});
    }
  }
}
