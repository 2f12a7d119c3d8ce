/**
 * The io-ts schema language the RPC command table is written in, restricted to
 * the combinators the table uses, and what it means for a JavaScript value to
 * satisfy a schema.
 */
module Schemas {
  import opened Wrappers
  import Js

  /** The four leaf codecs (`quantity`, `address`, `hexData`, `hash`) are defined
      elsewhere; the model takes their acceptance tests as parameters. */
  datatype Codecs = Codecs(
    quantity: Js.JsValue -> bool,
    address: Js.JsValue -> bool,
    hexData: Js.JsValue -> bool,
    hash: Js.JsValue -> bool)

  /** One io-ts combinator: `t.undefined`, `t.string`, `t.boolean`, a leaf codec,
      `t.literal`, `t.union`, `t.tuple`, `t.type` (a record) or `t.array`. */
  datatype Schema =
    | Undefined
    | String
    | Boolean
    | Quantity
    | Address
    | HexData
    | Hash
    | Literal(text: string)
    | Union(members: seq<Schema>)
    | Tuple(items: seq<Schema>)
    | Record(fields: seq<Field>)
    | Array(element: Schema)

  /** A named property of a record schema. */
  datatype Field = Field(name: string, schema: Schema)

  /** `v` is accepted by `s`. A record reads an absent property as `undefined` and
      ignores properties it does not name; a tuple is validated position by
      position against an array of the same length. */
  predicate Validates(c: Codecs, s: Schema, v: Js.JsValue)
    decreases s
  {
    match s
    case Undefined => v == Js.Undef
    case String => v.Str?
    case Boolean => v.Bool?
    case Quantity => c.quantity(v)
    case Address => c.address(v)
    case HexData => c.hexData(v)
    case Hash => c.hash(v)
    case Literal(text) => v == Js.Str(text)
    case Union(members) => exists i :: 0 <= i < |members| && Validates(c, members[i], v)
    case Tuple(items) =>
      && v.Arr?
      && |v.items| == |items|
      && forall i :: 0 <= i < |items| ==> Validates(c, items[i], v.items[i])
    case Record(fields) =>
      && v.Obj?
      && forall i :: 0 <= i < |fields| ==> Validates(c, fields[i].schema, Js.Member(v.fields, fields[i].name))
    case Array(element) =>
      && v.Arr?
      && forall j :: 0 <= j < |v.items| ==> Validates(c, element, v.items[j])
  }

  /** One step into a value: an array position or an object property. */
  datatype PathStep = Index(i: nat) | Key(key: string)

  /** Where, inside the validated value, a check failed. */
  type Path = seq<PathStep>

  /** Validation with a diagnostic: `None` when `v` is accepted, otherwise the path
      to a component that was rejected (a union that rejects every alternative,
      or a value of the wrong shape, is reported at its own position). */
  function Check(c: Codecs, s: Schema, v: Js.JsValue): (r: Option<Path>)
    ensures r.None? <==> Validates(c, s, v)
    decreases s, 1, 0
  {
    match s
    case Union(members) => if AnyMember(c, s, v, 0) then None else Some([])
    case Tuple(items) =>
      if v.Arr? && |v.items| == |items| then CheckItems(c, s, v.items, 0) else Some([])
    case Record(fields) => if v.Obj? then CheckFields(c, s, v.fields, 0) else Some([])
    case Array(element) => if v.Arr? then CheckElements(c, s, v.items, 0) else Some([])
    case _ => if Validates(c, s, v) then None else Some([])
  }

  /** Some alternative from position `i` on accepts `v`. */
  function AnyMember(c: Codecs, s: Schema, v: Js.JsValue, i: nat): (b: bool)
    requires s.Union? && i <= |s.members|
    ensures b <==> exists j :: i <= j < |s.members| && Validates(c, s.members[j], v)
    decreases s, 0, |s.members| - i
  {
    if i == |s.members| then false
    else Check(c, s.members[i], v).None? || AnyMember(c, s, v, i + 1)
  }

  /** The tuple positions from `i` on, each against its own schema. */
  function CheckItems(c: Codecs, s: Schema, xs: seq<Js.JsValue>, i: nat): (r: Option<Path>)
    requires s.Tuple? && |xs| == |s.items| && i <= |xs|
    ensures r.None? <==> forall j :: i <= j < |xs| ==> Validates(c, s.items[j], xs[j])
    ensures r.Some? && |r.value| > 0 ==> r.value[0].Index? && i <= r.value[0].i < |xs|
    decreases s, 0, |xs| - i
  {
    if i == |xs| then None
    else match Check(c, s.items[i], xs[i])
      case Some(p) => Some([Index(i)] + p)
      case None => CheckItems(c, s, xs, i + 1)
  }

  /** The record fields from `i` on, each read from the object (absent reads as undefined). */
  function CheckFields(c: Codecs, s: Schema, m: map<string, Js.JsValue>, i: nat): (r: Option<Path>)
    requires s.Record? && i <= |s.fields|
    ensures r.None? <==> forall j :: i <= j < |s.fields| ==>
      Validates(c, s.fields[j].schema, Js.Member(m, s.fields[j].name))
    ensures r.Some? && |r.value| > 0 ==> r.value[0].Key? && exists j :: i <= j < |s.fields| && s.fields[j].name == r.value[0].key
    decreases s, 0, |s.fields| - i
  {
    if i == |s.fields| then None
    else match Check(c, s.fields[i].schema, Js.Member(m, s.fields[i].name))
      case Some(p) => Some([Key(s.fields[i].name)] + p)
      case None => CheckFields(c, s, m, i + 1)
  }

  /** The array elements from `i` on, each against the element schema. */
  function CheckElements(c: Codecs, s: Schema, xs: seq<Js.JsValue>, i: nat): (r: Option<Path>)
    requires s.Array? && i <= |xs|
    ensures r.None? <==> forall j :: i <= j < |xs| ==> Validates(c, s.element, xs[j])
    ensures r.Some? && |r.value| > 0 ==> r.value[0].Index? && i <= r.value[0].i < |xs|
    decreases s, 0, |xs| - i
  {
    if i == |xs| then None
    else match Check(c, s.element, xs[i])
      case Some(p) => Some([Index(i)] + p)
      case None => CheckElements(c, s, xs, i + 1)
  }

  /** Every element of an array is accepted by the hash codec (so the empty array is). */
  predicate AllHashes(c: Codecs, x: Js.JsValue) {
    x.Arr? && forall j :: 0 <= j < |x.items| ==> c.hash(x.items[j])
  }

  /** What an accepted record says about one of its fields declared with a leaf
      codec or as an array of hashes: the value read (`undefined` when absent)
      passes it. */
  lemma RecordFieldLeaf(c: Codecs, fields: seq<Field>, v: Js.JsValue, i: nat)
    requires Validates(c, Record(fields), v) && i < |fields|
    ensures v.Obj?
    ensures var x := Js.Member(v.fields, fields[i].name);
      && (fields[i].schema == Quantity ==> c.quantity(x))
      && (fields[i].schema == Hash ==> c.hash(x))
      && (fields[i].schema == HexData ==> c.hexData(x))
      && (fields[i].schema == Address ==> c.address(x))
      && (fields[i].schema == Array(Hash) ==> AllHashes(c, x))
  {
    assert Validates(c, fields[i].schema, Js.Member(v.fields, fields[i].name));
  }

  /** The meaning of a leaf field (a leaf codec, or an array of hashes) on the value it reads. */
  predicate LeafHolds(c: Codecs, s: Schema, x: Js.JsValue) {
    match s
    case Quantity => c.quantity(x)
    case Hash => c.hash(x)
    case HexData => c.hexData(x)
    case Address => c.address(x)
    case Array(Hash) => AllHashes(c, x)
    case _ => false
  }

  /** An object whose every field passes its leaf codec is an accepted record. */
  lemma RecordFromLeaves(c: Codecs, fields: seq<Field>, v: Js.JsValue)
    requires v.Obj?
    requires forall i :: 0 <= i < |fields| ==> LeafHolds(c, fields[i].schema, Js.Member(v.fields, fields[i].name))
    ensures Validates(c, Record(fields), v)
  {
    forall i | 0 <= i < |fields|
      ensures Validates(c, fields[i].schema, Js.Member(v.fields, fields[i].name))
    {
      assert LeafHolds(c, fields[i].schema, Js.Member(v.fields, fields[i].name));
    }
  }
}
