/**
 * An explicit stand-in for the slice of Go reflection the router relies on.
 * A Go struct is a sequence of field records (name, type, tags, settable flag,
 * value); a pointer to a struct is an `Instance` object whose field values can
 * be updated in place; `Target` is what `reflect.ValueOf(x)` shows the engine:
 * either a pointer to a struct or anything else.
 */
module Reflect {
  import opened Wrappers

  /** Bit widths of Go's sized integer kinds; `int` and `uint` are 64 bits wide here. */
  datatype Width = W8 | W16 | W32 | W64

  function Modulus(w: Width): nat {
    match w
    case W8 => 0x100
    case W16 => 0x1_0000
    case W32 => 0x1_0000_0000
    case W64 => 0x1_0000_0000_0000_0000
  }

  /** int8(x), int16(x), ..., rune(x): two's-complement truncation, as Go converts integers and reflect.Value.SetInt stores them. */
  function WrapSigned(x: int, w: Width): (r: int)
    ensures -(Modulus(w) / 2) <= r < Modulus(w) / 2
    ensures -(Modulus(w) / 2) <= x < Modulus(w) / 2 ==> r == x
  {
    var m := Modulus(w);
    (x + m / 2) % m - m / 2
  }

  /** The truncation differs from the number by a multiple of 2^width: it is the number's residue in the signed range. */
  lemma WrapSignedCongruent(x: int, w: Width)
    ensures (WrapSigned(x, w) - x) % Modulus(w) == 0
  {
  }

  /** uint8(n), uint16(n), ...: truncation, as reflect.Value.SetUint stores it. */
  function WrapUnsigned(n: nat, w: Width): (r: nat)
    ensures r < Modulus(w)
    ensures n < Modulus(w) ==> r == n
  {
    n % Modulus(w)
  }

  /** The truncation differs from the number by a multiple of 2^width: it is the number's residue in the unsigned range. */
  lemma WrapUnsignedCongruent(n: nat, w: Width)
    ensures (WrapUnsigned(n, w) - n) % Modulus(w) == 0
  {
  }

  /** reflect.Kind, reduced to the kinds the engine tells apart. */
  datatype Kind =
    | StringKind
    | IntKind(iw: Width)
    | UintKind(uw: Width)
    | BoolKind
    | FloatKind
    | StructKind
    | PointerKind
    | InterfaceKind
    | MapKind
    | SliceKind
    | FuncKind

  /**
   * A Go type: its name ("" for an unnamed type literal such as `func()` or
   * `[]string`), its kind, its underlying type written out, and its method
   * set; for an interface type `methods` is the set of methods it requires.
   * Two types are identical when all four agree.
   */
  datatype GoType = GoType(name: string, kind: Kind, underlying: string, methods: set<string>)

  /** What a typed value holds: scalars explicitly, anything else as an opaque reference. */
  datatype Data =
    | Str(s: string)
    | Signed(i: int)
    | Unsigned(n: nat)
    | Boolean(b: bool)
    | FloatText(text: string)
    | Ref(id: nat)

  /** A value together with its dynamic type. */
  datatype Value = Value(typ: GoType, data: Data)

  /** Go's `any`: nil, or a typed value. */
  datatype AnyValue = Nil | Of(value: Value)

  /** One field of a struct: its declaration and its current value. */
  datatype Field = Field(name: string, typ: GoType, tags: map<string, string>, settable: bool, value: AnyValue)

  /** The zero-size marker type `core.Pattern` that carries the routing tags. */
  const PatternType: GoType := GoType("core.Pattern", StructKind, "struct{}", {})

  /** reflect.StructTag.Get: the tag's value, or "" when the key is absent. */
  function TagGet(f: Field, key: string): string {
    if key in f.tags then f.tags[key] else ""
  }

  /** reflect.StructTag.Lookup. */
  function TagLookup(f: Field, key: string): Option<string> {
    if key in f.tags then Some(f.tags[key]) else None
  }

  /** reflect.TypeOf on an `any`: nil has no type. */
  function TypeOf(a: AnyValue): Option<GoType> {
    match a
    case Nil => None
    case Of(v) => Some(v.typ)
  }

  /** The type is a type literal rather than a defined (named) type. */
  predicate Unnamed(t: GoType) { t.name == "" }

  /**
   * reflect.Type.AssignableTo for a dynamic (hence concrete) type `v`:
   * identical types; types with identical underlying types of which at least
   * one is unnamed; or an interface type whose methods `v` has.
   */
  predicate AssignableTo(v: GoType, t: GoType) {
    v == t ||
    (v.kind == t.kind && v.underlying == t.underlying && (Unnamed(v) || Unnamed(t))) ||
    (t.kind == InterfaceKind && t.methods <= v.methods)
  }

  /** Two distinct defined types are not assignable to each other unless the target is an interface `v` implements. */
  lemma DistinctNamedTypes(v: GoType, t: GoType)
    requires !Unnamed(v) && !Unnamed(t) && v != t
    ensures AssignableTo(v, t) <==> t.kind == InterfaceKind && t.methods <= v.methods
  {
  }

  /** Index of the first field whose type is the marker type, if any. */
  function PatternIndex(fields: seq<Field>): (r: Option<nat>)
    ensures r.Some? ==> r.value < |fields| && fields[r.value].typ == PatternType
    ensures r.Some? ==> forall j :: 0 <= j < r.value ==> fields[j].typ != PatternType
    ensures r.None? ==> forall j :: 0 <= j < |fields| ==> fields[j].typ != PatternType
  {
    if fields == [] then None
    else if fields[0].typ == PatternType then Some(0)
    else match PatternIndex(fields[1..])
      case None => None
      case Some(i) => Some(i + 1)
  }

  /** A tag of the first marker field; "" when there is no marker field or no such tag. */
  function PatternTag(fields: seq<Field>, key: string): string {
    match PatternIndex(fields)
    case None => ""
    case Some(i) => TagGet(fields[i], key)
  }

  /** Two field sequences declare the same struct layout (they may differ in values). */
  predicate SameLayout(a: seq<Field>, b: seq<Field>) {
    |a| == |b| &&
    forall i :: 0 <= i < |a| ==>
      a[i].name == b[i].name && a[i].typ == b[i].typ && a[i].tags == b[i].tags && a[i].settable == b[i].settable
  }

  /** `order` lists every element of `s` exactly once: one possible Go map iteration order. */
  predicate IsOrderOf<T>(order: seq<T>, s: set<T>) {
    (forall i, j :: 0 <= i < j < |order| ==> order[i] != order[j]) &&
    (forall k :: 0 <= k < |order| ==> order[k] in s) &&
    (forall x :: x in s ==> x in order)
  }

  /** `order` lists every index below `n` exactly once. */
  predicate IsIndexOrder(order: seq<nat>, n: nat) {
    (forall i, j :: 0 <= i < j < |order| ==> order[i] != order[j]) &&
    (forall k :: 0 <= k < |order| ==> order[k] < n) &&
    (forall i :: 0 <= i < n ==> i in order)
  }

  /** A struct reached through a pointer: its type name and its fields, updated in place. */
  class Instance {
    const typeName: string
    var fields: seq<Field>

    constructor (typeName: string, fields: seq<Field>)
      ensures this.typeName == typeName && this.fields == fields
    {
      this.typeName := typeName;
      this.fields := fields;
    }

    /** reflect.New(T).Elem().Set(*p): a fresh struct holding a shallow copy of the fields. */
    method Copy() returns (c: Instance)
      ensures fresh(c)
      ensures c.typeName == typeName && c.fields == fields
    {
      c := new Instance(typeName, fields);
    }
  }

  /** What reflect.ValueOf reports for a handler or a bind target. */
  datatype Target = StructPtr(inst: Instance) | NotStructPtr(typeName: string) {
    /** The objects an operation on the target may write. */
    function Footprint(): set<Instance> {
      if StructPtr? then {inst} else {}
    }
  }
}
