/**
 Plain JavaScript values as they appear in the tag, user and extra maps and in
 breadcrumb records, the key-wise merge performed by object spread
 (`{ ...a, ...b }`), and the `JSON.parse(JSON.stringify(obj))` round trip that
 the reporter uses to drop `undefined` entries before handing a map to a scope.
 */
module Values {

  datatype Option<T> = None | Some(value: T)

  /** A top-level property value. `Undefined` is JavaScript's `undefined`. */
  datatype Value = Undefined | Null | Bool(b: bool) | Num(n: int) | Str(s: string)

  /** A plain object: property name to value. */
  type Fields = map<string, Value>

  /** `{ ...base, ...over }`: every key of `over` wins, every other key of `base` stays. */
  function Merge(base: Fields, over: Fields): (r: Fields)
    ensures r.Keys == base.Keys + over.Keys
    ensures forall k :: k in over ==> r[k] == over[k]
    ensures forall k :: k in base && k !in over ==> r[k] == base[k]
  {
    base + over
  }

  /** The clean copy a scope receives: `m` without its `undefined` entries. */
  function Sanitize(m: Fields): (r: Fields)
    ensures forall k :: k in r <==> k in m && m[k] != Undefined
    ensures forall k :: k in r ==> r[k] == m[k]
  {
    map k | k in m && m[k] != Undefined :: m[k]
  }

  /** What a scope receives for one of tags, user or extra: the accumulated map
      overridden by the per-call map, then cleaned. */
  function Project(base: Fields, over: Fields): (r: Fields)
    ensures r.Keys <= base.Keys + over.Keys
    ensures forall k :: k in r ==> r[k] != Undefined
    ensures forall k :: k in r ==> r[k] == if k in over then over[k] else base[k]
  {
    Sanitize(Merge(base, over))
  }

  // ---------------------------------------------------------------------------
  // The JSON round trip, one level deep.

  /** JSON text for a single property value. */
  datatype Json = JNull | JBool(b: bool) | JNum(n: int) | JStr(s: string)

  /** `JSON.stringify` of a property value inside an object: `undefined` has no
      JSON form and the property is omitted. */
  function Encode(v: Value): (r: Option<Json>)
    ensures r == None <==> v == Undefined
  {
    match v
    case Undefined => None
    case Null => Some(JNull)
    case Bool(b) => Some(JBool(b))
    case Num(n) => Some(JNum(n))
    case Str(s) => Some(JStr(s))
  }

  /** `JSON.parse` of a property value. */
  function Decode(j: Json): (v: Value)
    ensures Encode(v) == Some(j)
  {
    match j
    case JNull => Null
    case JBool(b) => Bool(b)
    case JNum(n) => Num(n)
    case JStr(s) => Str(s)
  }

  /** Every value that has a JSON form is read back unchanged. */
  lemma DecodeEncode(v: Value)
    requires v != Undefined
    ensures Encode(v).Some? && Decode(Encode(v).value) == v
  {
  }

  /** The members of the JSON object text `JSON.stringify(m)` writes, visiting
      the keys of `m` in the order `keys`. */
  function Stringify(m: Fields, keys: seq<string>): (text: seq<(string, Json)>)
    requires forall i :: 0 <= i < |keys| ==> keys[i] in m
    ensures |text| <= |keys|
    ensures forall i :: 0 <= i < |text| ==> text[i].0 in keys && Decode(text[i].1) == m[text[i].0]
  {
    if keys == [] then []
    else
      var front := Stringify(m, keys[..|keys| - 1]);
      var k := keys[|keys| - 1];
      match Encode(m[k])
      case None => front
      case Some(j) => front + [(k, j)]
  }

  /** `JSON.parse` of object text: members are read in order, a later member
      with the same name overwriting an earlier one. */
  function Parse(members: seq<(string, Json)>): (r: Fields)
    ensures r.Keys == set i | 0 <= i < |members| :: members[i].0
    ensures forall k :: k in r ==> r[k] != Undefined
  {
    if members == [] then map[]
    else
      var last := members[|members| - 1];
      Parse(members[..|members| - 1])[last.0 := Decode(last.1)]
  }

  /** Reading back the text written for the keys `keys` gives exactly the
      defined entries of `m` under those keys. */
  lemma {:induction false} ParseStringify(m: Fields, keys: seq<string>)
    requires forall i :: 0 <= i < |keys| ==> keys[i] in m
    ensures Parse(Stringify(m, keys)) == map k | k in keys && m[k] != Undefined :: m[k]
  {
    if keys != [] {
      var front := keys[..|keys| - 1];
      var k := keys[|keys| - 1];
      ParseStringify(m, front);
      assert keys == front + [k];
      match Encode(m[k])
      case None =>
      case Some(j) =>
        var text := Stringify(m, front) + [(k, j)];
        assert text[..|text| - 1] == Stringify(m, front);
        DecodeEncode(m[k]);
    }
  }

  /** `JSON.parse(JSON.stringify(m))` for a flat object: the text is written by
      visiting each own key of `m` once (JavaScript visits them in insertion
      order; here the order is whatever the enumeration yields), then read back.
      The result is the clean copy, whatever the order. */
  method JsonRoundTrip(m: Fields) returns (r: Fields)
    ensures r == Sanitize(m)
  {
    var keys: seq<string> := [];
    var rest := m.Keys;
    while rest != {}
      invariant rest <= m.Keys
      invariant forall i :: 0 <= i < |keys| ==> keys[i] in m
      invariant forall k :: k in m ==> k in rest || k in keys
      decreases rest
    {
      var k :| k in rest;
      keys := keys + [k];
      rest := rest - {k};
    }
    r := Parse(Stringify(m, keys));
    ParseStringify(m, keys);
  }

  /** The empty object is neutral on either side of a spread. */
  lemma MergeEmpty(m: Fields)
    ensures Merge(map[], m) == m && Merge(m, map[]) == m
  {
  }

  /** Cleaning after a single-key update: an `undefined` value removes the key,
      any other value is kept. */
  lemma SanitizeUpdate(m: Fields, k: string, v: Value)
    ensures Sanitize(m[k := v]) == if v == Undefined then Sanitize(m) - {k} else Sanitize(m)[k := v]
  {
  }

  /** The one property name that a plain assignment `obj[key] = value` treats
      specially: unless the object already has it as an own property, or no
      longer inherits it, the assignment runs the inherited prototype setter. */
  const ProtoKey: string := "__proto__"

  /** An object written into by `obj[key] = value`: its own properties, and
      whether its prototype has been set to `null`, after which it no longer
      inherits the `__proto__` setter. Objects built by a literal or by spread
      have the ordinary prototype. */
  datatype Obj = Obj(own: Fields, nullProto: bool)

  /** `obj[key] = value`. For `__proto__` on an object that has no such own
      property and still inherits the setter, the setter runs: it stores no own
      property, replaces the prototype by `null` when the value is `null`, and
      ignores any other value modelled here. Every other write stores the key. */
  function Assign(o: Obj, key: string, value: Value): (r: Obj)
    ensures key in r.own <==> key in o.own || key != ProtoKey || o.nullProto
    ensures key in r.own ==> r.own[key] == value
    ensures r.own.Keys <= o.own.Keys + {key}
    ensures forall k :: k in o.own && k != key ==> k in r.own && r.own[k] == o.own[k]
    ensures r.nullProto <==> o.nullProto || (key == ProtoKey && key !in o.own && value == Null)
  {
    if key == ProtoKey && key !in o.own && !o.nullProto then Obj(o.own, value == Null)
    else Obj(o.own[key := value], o.nullProto)
  }

  /** An `undefined` in the per-call map hides the accumulated entry under the
      same key; any other per-call value replaces it. */
  lemma ProjectOverride(base: Fields, over: Fields, k: string)
    ensures k in over && over[k] == Undefined ==> k !in Project(base, over)
    ensures k in over && over[k] != Undefined ==> k in Project(base, over) && Project(base, over)[k] == over[k]
    ensures k !in over ==> (k in Project(base, over) <==> k in base && base[k] != Undefined)
    ensures k !in over && k in Project(base, over) ==> Project(base, over)[k] == base[k]
  {
  }

  /** Merging is associative, so consecutive bulk updates can be combined. */
  lemma MergeAssociative(a: Fields, b: Fields, c: Fields)
    ensures Merge(Merge(a, b), c) == Merge(a, Merge(b, c))
  {
  }
}
