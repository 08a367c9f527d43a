/**
 * The field binder. `Bind` runs three phases over a struct behind a pointer:
 * (1) every source, in map order, offers a value for each field carrying the
 * source's tag, and the first non-empty value recorded for a field wins;
 * (2) a non-empty `default` tag fills a field no source gave a value;
 * (3) the recorded values, in map order, are coerced by the field's kind and
 * stored, stopping at the first coercion failure. `BindJSON` picks the field
 * tagged `body:"json"` as the target of a JSON decode.
 */
module Binding {
  import opened Wrappers
  import opened Reflect
  import opened Strconv

  /** A source: key -> value, "" meaning "nothing". */
  type BindFunc = string -> string

  /** Why setField refused a value. */
  datatype CoerceError = ParseFailed(num: string, err: NumError) | Unsupported(kind: Kind)

  /** Why Bind failed. */
  datatype BindError = NotStructPointer | FieldFailed(field: string, cause: CoerceError)

  /**
   * setField: the new value of a field of type `typ` given the text `s`.
   * Strings are taken verbatim, integers go through ParseInt/ParseUint with
   * base 10 and bit size 64 and are then truncated to the field's width,
   * booleans go through ParseBool; floating-point text is kept as text; any
   * other kind is unsupported.
   */
  function Coerce(typ: GoType, s: string): (r: Result<AnyValue, CoerceError>)
    ensures r.Success? ==> r.value.Of? && r.value.value.typ == typ
    ensures typ.kind == StringKind ==> r == Success(Of(Value(typ, Str(s))))
    ensures typ.kind.IntKind? ==> (r.Success? <==> ParseInt(s).Success?)
    ensures typ.kind.UintKind? ==> (r.Success? <==> ParseUint(s).Success?)
    ensures typ.kind == BoolKind ==> (r.Success? <==> s in TrueSpellings + FalseSpellings)
    ensures typ.kind in {StructKind, PointerKind, InterfaceKind, MapKind, SliceKind, FuncKind} ==>
      r == Failure(Unsupported(typ.kind))
    ensures typ.kind.IntKind? && r.Success? ==>
      r.value.value.data == Signed(WrapSigned(ParseInt(s).value, typ.kind.iw))
    ensures typ.kind.UintKind? && r.Success? ==>
      r.value.value.data == Unsigned(WrapUnsigned(ParseUint(s).value, typ.kind.uw))
    ensures typ.kind == BoolKind && r.Success? ==> r.value.value.data == Boolean(s in TrueSpellings)
    ensures typ.kind == FloatKind ==> r == Success(Of(Value(typ, FloatText(s))))
    ensures typ.kind.IntKind? && r.Failure? ==> r.error == ParseFailed(s, ParseInt(s).error)
    ensures typ.kind.UintKind? && r.Failure? ==> r.error == ParseFailed(s, ParseUint(s).error)
    ensures typ.kind == BoolKind && r.Failure? ==> r.error == ParseFailed(s, ParseBool(s).error)
  {
    match typ.kind
    case StringKind => Success(Of(Value(typ, Str(s))))
    case IntKind(w) =>
      (match ParseInt(s)
       case Success(i) => Success(Of(Value(typ, Signed(WrapSigned(i, w)))))
       case Failure(e) => Failure(ParseFailed(s, e)))
    case UintKind(w) =>
      (match ParseUint(s)
       case Success(n) => Success(Of(Value(typ, Unsigned(WrapUnsigned(n, w)))))
       case Failure(e) => Failure(ParseFailed(s, e)))
    case BoolKind =>
      (match ParseBool(s)
       case Success(b) => Success(Of(Value(typ, Boolean(b))))
       case Failure(e) => Failure(ParseFailed(s, e)))
    case FloatKind => Success(Of(Value(typ, FloatText(s))))
    case _ => Failure(Unsupported(typ.kind))
  }

  /** A 64-bit integer field receives exactly the number its decimal text denotes. */
  lemma CoerceInt64RoundTrip(typ: GoType, i: int)
    requires typ.kind == IntKind(W64) && MinInt64 <= i <= MaxInt64
    ensures Coerce(typ, FormatInt(i)) == Success(Of(Value(typ, Signed(i))))
  {
    IntRoundTrip(i);
    assert WrapSigned(i, W64) == i;
  }

  /** A narrower field keeps the two's-complement truncation of the parsed number: "200" in an int8 field is -56. */
  lemma CoerceInt8Wraps(typ: GoType)
    requires typ.kind == IntKind(W8)
    ensures Coerce(typ, "200") == Success(Of(Value(typ, Signed(-56))))
  {
    IntRoundTrip(200);
    assert FormatInt(200) == "200" by {
      assert FormatUint(20) == "20";
    }
  }

  /** A 64-bit unsigned field receives exactly the number its decimal text denotes. */
  lemma CoerceUint64RoundTrip(typ: GoType, n: nat)
    requires typ.kind == UintKind(W64) && n <= MaxUint64
    ensures Coerce(typ, FormatUint(n)) == Success(Of(Value(typ, Unsigned(n))))
  {
    UintRoundTrip(n);
    assert WrapUnsigned(n, W64) == n;
  }

  /** Integer fields accept only an optional sign and base-10 digits. */
  lemma CoerceIntOnlyDecimal(typ: GoType, s: string)
    requires typ.kind.IntKind? && Coerce(typ, s).Success?
    ensures s != []
    ensures var body := if s[0] == '+' || s[0] == '-' then s[1..] else s;
      body != [] && AllDigits(body)
  {
    ParseIntShape(s);
  }

  /** Unsigned fields reject any sign. */
  lemma CoerceUintRejectsSign(typ: GoType, s: string)
    requires typ.kind.UintKind? && s != [] && (s[0] == '+' || s[0] == '-')
    ensures Coerce(typ, s) == Failure(ParseFailed(s, ErrSyntax))
  {
  }

  /** A boolean field reads back what FormatBool wrote. */
  lemma CoerceBoolRoundTrip(typ: GoType, b: bool)
    requires typ.kind == BoolKind
    ensures Coerce(typ, FormatBool(b)) == Success(Of(Value(typ, Boolean(b))))
  {
  }

  // ---------------------------------------------------------------------
  // Phases 1 and 2: which text each field receives

  /** Source `tag` offers a value for `f`: the field has a non-empty key for it and the source answers non-empty text. */
  predicate Yields(sources: map<string, BindFunc>, tag: string, f: Field)
    requires tag in sources
  {
    TagGet(f, tag) != "" && sources[tag](TagGet(f, tag)) != ""
  }

  /** The value source `tag` offers for `f`. */
  function Offer(sources: map<string, BindFunc>, tag: string, f: Field): string
    requires tag in sources
  {
    sources[tag](TagGet(f, tag))
  }

  /** The value phase 1 records for `f` when the sources are visited in `order`. */
  function SourceHit(sources: map<string, BindFunc>, order: seq<string>, f: Field): (r: Option<string>)
    requires forall k :: 0 <= k < |order| ==> order[k] in sources
    ensures r.Some? ==> r.value != ""
  {
    if order == [] then None
    else if Yields(sources, order[0], f) then Some(Offer(sources, order[0], f))
    else SourceHit(sources, order[1..], f)
  }

  /**
   * Phase 1 records a value for `f` exactly when some source offers one, and
   * then it is the offer of the first such source in the visiting order.
   */
  lemma {:induction false} SourceHitSpec(sources: map<string, BindFunc>, order: seq<string>, f: Field)
    requires forall k :: 0 <= k < |order| ==> order[k] in sources
    ensures SourceHit(sources, order, f).Some? <==> exists k :: 0 <= k < |order| && Yields(sources, order[k], f)
    ensures SourceHit(sources, order, f).Some? ==>
      (exists k :: 0 <= k < |order| && Yields(sources, order[k], f) &&
        SourceHit(sources, order, f).value == Offer(sources, order[k], f) &&
        forall k' :: 0 <= k' < k ==> !Yields(sources, order[k'], f))
  {
    if order != [] && !Yields(sources, order[0], f) {
      SourceHitSpec(sources, order[1..], f);
      assert forall k :: 1 <= k < |order| ==> order[k] == order[1..][k - 1];
      if SourceHit(sources, order, f).Some? {
        var k :| 0 <= k < |order[1..]| && Yields(sources, order[1..][k], f) &&
          SourceHit(sources, order, f).value == Offer(sources, order[1..][k], f) &&
          forall k' :: 0 <= k' < k ==> !Yields(sources, order[1..][k'], f);
        assert Yields(sources, order[k + 1], f);
      }
    }
  }

  /** The text phases 1 and 2 settle on for `f`, if any. */
  function Resolve(sources: map<string, BindFunc>, order: seq<string>, f: Field): Option<string>
    requires forall k :: 0 <= k < |order| ==> order[k] in sources
  {
    match SourceHit(sources, order, f)
    case Some(v) => Some(v)
    case None => if TagGet(f, "default") != "" then Some(TagGet(f, "default")) else None
  }

  /** The `values` map at the end of phase 2. */
  function Values(sources: map<string, BindFunc>, order: seq<string>, fields: seq<Field>): map<nat, string>
    requires forall k :: 0 <= k < |order| ==> order[k] in sources
  {
    map i: nat | i < |fields| && Resolve(sources, order, fields[i]).Some? :: Resolve(sources, order, fields[i]).value
  }

  /** Visiting one more source changes only fields that had no value yet. */
  lemma {:induction false} SourceHitSnoc(sources: map<string, BindFunc>, pre: seq<string>, tag: string, f: Field)
    requires forall k :: 0 <= k < |pre| ==> pre[k] in sources
    requires tag in sources
    ensures SourceHit(sources, pre + [tag], f) ==
      if SourceHit(sources, pre, f).Some? then SourceHit(sources, pre, f)
      else if Yields(sources, tag, f) then Some(Offer(sources, tag, f))
      else None
  {
    if pre != [] {
      assert (pre + [tag])[1..] == pre[1..] + [tag];
      SourceHitSnoc(sources, pre[1..], tag, f);
    }
  }

  /** First value wins: once some prefix of the order gave `f` a value, the whole order gives the same. */
  lemma {:induction false} FirstValueWins(sources: map<string, BindFunc>, order: seq<string>, k: nat, f: Field)
    requires forall j :: 0 <= j < |order| ==> order[j] in sources
    requires k <= |order| && SourceHit(sources, order[..k], f).Some?
    ensures SourceHit(sources, order, f) == SourceHit(sources, order[..k], f)
    decreases |order| - k
  {
    if k < |order| {
      assert order[..k + 1] == order[..k] + [order[k]];
      SourceHitSnoc(sources, order[..k], order[k], f);
      FirstValueWins(sources, order, k + 1, f);
    } else {
      assert order[..k] == order;
    }
  }

  /**
   * When at most one source offers a value for `f`, the visiting order does
   * not matter: every order of the same sources records the same text.
   */
  lemma OrderIrrelevantForSingleOffer(sources: map<string, BindFunc>, o1: seq<string>, o2: seq<string>, f: Field)
    requires IsOrderOf(o1, sources.Keys) && IsOrderOf(o2, sources.Keys)
    requires forall t, u :: t in sources && u in sources && Yields(sources, t, f) && Yields(sources, u, f) ==> t == u
    ensures SourceHit(sources, o1, f) == SourceHit(sources, o2, f)
  {
    SourceHitSpec(sources, o1, f);
    SourceHitSpec(sources, o2, f);
    var r1 := SourceHit(sources, o1, f);
    var r2 := SourceHit(sources, o2, f);
    if r1.Some? {
      var k1 :| 0 <= k1 < |o1| && Yields(sources, o1[k1], f) && r1.value == Offer(sources, o1[k1], f);
      assert o1[k1] in o2;
      var k2 :| 0 <= k2 < |o2| && Yields(sources, o2[k2], f) && r2.value == Offer(sources, o2[k2], f);
    }
  }

  /** A non-empty default is used exactly when no source offered a value. */
  lemma DefaultOnlyWithoutSource(sources: map<string, BindFunc>, order: seq<string>, f: Field)
    requires forall k :: 0 <= k < |order| ==> order[k] in sources
    requires TagGet(f, "default") != ""
    ensures Resolve(sources, order, f) == Some(TagGet(f, "default")) <==>
      SourceHit(sources, order, f).None? || SourceHit(sources, order, f) == Some(TagGet(f, "default"))
  {
  }

  // ---------------------------------------------------------------------
  // Phase 3: storing the values

  datatype Outcome = Outcome(fields: seq<Field>, err: Option<BindError>)

  /** Whether phase 3 stores a value into field `i`. */
  predicate Stores(fields: seq<Field>, values: map<nat, string>, i: nat)
    requires i < |fields|
  {
    i in values && fields[i].settable
  }

  /** Phase 3 visiting the recorded fields in `order`: coerce and store, stop at the first failure. */
  function ApplyValues(fields: seq<Field>, values: map<nat, string>, order: seq<nat>): (o: Outcome)
    requires forall k :: 0 <= k < |order| ==> order[k] < |fields|
    ensures SameLayout(o.fields, fields)
    decreases |order|
  {
    if order == [] then Outcome(fields, None)
    else
      var i := order[0];
      if Stores(fields, values, i) then
        match Coerce(fields[i].typ, values[i])
        case Failure(e) => Outcome(fields, Some(FieldFailed(fields[i].name, e)))
        case Success(v) =>
          var next := fields[i := fields[i].(value := v)];
          assert SameLayout(next, fields);
          ApplyValues(next, values, order[1..])
      else ApplyValues(fields, values, order[1..])
  }

  /**
   * Phase 3 applies values partially: every field keeps its value or holds
   * its coerced text, and an error names a field whose kind refuses its text.
   */
  lemma {:induction false} ApplyValuesSpec(fields: seq<Field>, values: map<nat, string>, order: seq<nat>)
    requires forall k :: 0 <= k < |order| ==> order[k] < |fields|
    ensures var o := ApplyValues(fields, values, order);
      forall i :: 0 <= i < |fields| ==>
        o.fields[i] == fields[i] ||
        (Stores(fields, values, i) && Coerce(fields[i].typ, values[i]) == Success(o.fields[i].value))
    ensures var o := ApplyValues(fields, values, order);
      o.err.Some? ==> (o.err.value.FieldFailed? &&
        exists i :: 0 <= i < |fields| && Stores(fields, values, i) && fields[i].name == o.err.value.field &&
          Coerce(fields[i].typ, values[i]) == Failure(o.err.value.cause))
    decreases |order|
  {
    if order != [] {
      var i := order[0];
      var rest := order[1..];
      assert forall k :: 0 <= k < |rest| ==> rest[k] == order[k + 1];
      if Stores(fields, values, i) {
        match Coerce(fields[i].typ, values[i])
        case Failure(e) =>
        case Success(v) =>
          var next := fields[i := fields[i].(value := v)];
          ApplyValuesSpec(next, values, rest);
          assert forall j :: 0 <= j < |fields| ==> Stores(next, values, j) == Stores(fields, values, j) && next[j].typ == fields[j].typ;
          assert forall j :: 0 <= j < |fields| && j != i ==> next[j] == fields[j];
      } else {
        ApplyValuesSpec(fields, values, rest);
      }
    }
  }

  /** The fields after a phase 3 that stored every recorded value. */
  function Stored(fields: seq<Field>, values: map<nat, string>): seq<Field>
    requires forall i :: 0 <= i < |fields| && Stores(fields, values, i) ==> Coerce(fields[i].typ, values[i]).Success?
  {
    seq(|fields|, i requires 0 <= i < |fields| =>
      if Stores(fields, values, i) then fields[i].(value := Coerce(fields[i].typ, values[i]).value) else fields[i])
  }

  lemma {:induction false} ApplyDistinct(fields: seq<Field>, values: map<nat, string>, order: seq<nat>)
    requires forall k :: 0 <= k < |order| ==> order[k] < |fields|
    requires forall a, b :: 0 <= a < b < |order| ==> order[a] != order[b]
    requires forall k :: 0 <= k < |order| && Stores(fields, values, order[k]) ==>
      Coerce(fields[order[k]].typ, values[order[k]]).Success?
    ensures ApplyValues(fields, values, order).err.None?
    ensures forall i :: 0 <= i < |fields| ==>
      ApplyValues(fields, values, order).fields[i] ==
        if i in order && Stores(fields, values, i) then fields[i].(value := Coerce(fields[i].typ, values[i]).value)
        else fields[i]
    decreases |order|
  {
    if order != [] {
      var i := order[0];
      var rest := order[1..];
      assert forall k :: 0 <= k < |rest| ==> rest[k] == order[k + 1];
      if Stores(fields, values, i) {
        var next := fields[i := fields[i].(value := Coerce(fields[i].typ, values[i]).value)];
        assert forall j :: 0 <= j < |fields| ==> Stores(next, values, j) == Stores(fields, values, j);
        ApplyDistinct(next, values, rest);
      } else {
        ApplyDistinct(fields, values, rest);
      }
    }
  }

  /**
   * When every recorded text suits its field, phase 3 reports no error and
   * its result does not depend on the visiting order: every recorded,
   * settable field holds its coerced text and every other field is unchanged.
   */
  lemma ApplyAllSucceed(fields: seq<Field>, values: map<nat, string>, order: seq<nat>)
    requires IsIndexOrder(order, |fields|)
    requires forall i :: 0 <= i < |fields| && Stores(fields, values, i) ==> Coerce(fields[i].typ, values[i]).Success?
    ensures ApplyValues(fields, values, order) == Outcome(Stored(fields, values), None)
  {
    ApplyDistinct(fields, values, order);
  }

  lemma {:induction false} NoErrorMeansAllCoerce(fields: seq<Field>, values: map<nat, string>, order: seq<nat>)
    requires forall k :: 0 <= k < |order| ==> order[k] < |fields|
    requires ApplyValues(fields, values, order).err.None?
    ensures forall k :: 0 <= k < |order| && Stores(fields, values, order[k]) ==>
      Coerce(fields[order[k]].typ, values[order[k]]).Success?
    decreases |order|
  {
    if order != [] {
      var i := order[0];
      var rest := order[1..];
      assert forall k :: 1 <= k < |order| ==> order[k] == rest[k - 1];
      if Stores(fields, values, i) {
        var next := fields[i := fields[i].(value := Coerce(fields[i].typ, values[i]).value)];
        NoErrorMeansAllCoerce(next, values, rest);
        assert forall j :: 0 <= j < |fields| ==> Stores(next, values, j) == Stores(fields, values, j) && next[j].typ == fields[j].typ;
      } else {
        NoErrorMeansAllCoerce(fields, values, rest);
      }
    }
  }

  /** Phase 3 fails exactly when some recorded, settable field's kind refuses its text. */
  lemma ApplyFailsIff(fields: seq<Field>, values: map<nat, string>, order: seq<nat>)
    requires IsIndexOrder(order, |fields|)
    ensures ApplyValues(fields, values, order).err.Some? <==>
      exists i :: 0 <= i < |fields| && Stores(fields, values, i) && Coerce(fields[i].typ, values[i]).Failure?
  {
    ApplyValuesSpec(fields, values, order);
    if ApplyValues(fields, values, order).err.None? {
      NoErrorMeansAllCoerce(fields, values, order);
      forall i | 0 <= i < |fields| && Stores(fields, values, i)
        ensures Coerce(fields[i].typ, values[i]).Success?
      {
        assert i in order;
        var k :| 0 <= k < |order| && order[k] == i;
      }
    }
  }

  /** A field that neither a source nor a default gave text keeps its prototype value. */
  lemma UnresolvedFieldKept(sources: map<string, BindFunc>, order: seq<string>, fields: seq<Field>, applyOrder: seq<nat>, i: nat)
    requires forall k :: 0 <= k < |order| ==> order[k] in sources
    requires forall k :: 0 <= k < |applyOrder| ==> applyOrder[k] < |fields|
    requires i < |fields| && Resolve(sources, order, fields[i]).None?
    ensures ApplyValues(fields, Values(sources, order, fields), applyOrder).fields[i] == fields[i]
  {
    ApplyValuesSpec(fields, Values(sources, order, fields), applyOrder);
  }

  // ---------------------------------------------------------------------
  // BindJSON

  /** The first settable field tagged body:"json", if any. */
  function JsonBodyIndex(fields: seq<Field>): (r: Option<nat>)
    ensures r.Some? ==> r.value < |fields| && TagLookup(fields[r.value], "body") == Some("json") && fields[r.value].settable
    ensures r.Some? ==> forall j :: 0 <= j < r.value ==> !(TagLookup(fields[j], "body") == Some("json") && fields[j].settable)
    ensures r.None? ==> forall j :: 0 <= j < |fields| ==> !(TagLookup(fields[j], "body") == Some("json") && fields[j].settable)
  {
    if fields == [] then None
    else if TagLookup(fields[0], "body") == Some("json") && fields[0].settable then Some(0)
    else match JsonBodyIndex(fields[1..])
      case None => None
      case Some(i) => Some(i + 1)
  }

  /** What json.Unmarshal leaves in the chosen field, and the error it reports. */
  datatype Decoded = Decoded(value: AnyValue, err: Option<string>)

  /** json.Unmarshal into a field: current value, field type, raw body. */
  type Unmarshal = (AnyValue, GoType, seq<bv8>) -> Decoded

  datatype JsonOutcome = JsonOutcome(fields: seq<Field>, err: Option<string>)

  /** The effect of BindJSON on a struct's fields. */
  function JsonBound(fields: seq<Field>, data: seq<bv8>, unmarshal: Unmarshal): (o: JsonOutcome)
    ensures SameLayout(o.fields, fields)
    ensures JsonBodyIndex(fields).None? ==> o == JsonOutcome(fields, None)
    ensures forall j :: 0 <= j < |fields| && Some(j) != JsonBodyIndex(fields) ==> o.fields[j] == fields[j]
  {
    match JsonBodyIndex(fields)
    case None => JsonOutcome(fields, None)
    case Some(i) =>
      var d := unmarshal(fields[i].value, fields[i].typ, data);
      JsonOutcome(fields[i := fields[i].(value := d.value)], d.err)
  }

  /** A full pass of one more source turns the values recorded for `pre` into those recorded for `pre + [tag]`. */
  lemma PassHit(sources: map<string, BindFunc>, pre: seq<string>, tag: string, fields: seq<Field>,
                values0: map<nat, string>, values: map<nat, string>)
    requires forall k :: 0 <= k < |pre| ==> pre[k] in sources
    requires tag in sources
    requires forall j: nat :: j in values0 <==> j < |fields| && SourceHit(sources, pre, fields[j]).Some?
    requires forall j: nat :: j in values0 ==> values0[j] == SourceHit(sources, pre, fields[j]).value
    requires forall j: nat :: j in values <==> j in values0 || (j < |fields| && Yields(sources, tag, fields[j]))
    requires forall j: nat :: j in values ==> values[j] == if j in values0 then values0[j] else Offer(sources, tag, fields[j])
    ensures forall j: nat :: j in values <==> j < |fields| && SourceHit(sources, pre + [tag], fields[j]).Some?
    ensures forall j: nat :: j in values ==> values[j] == SourceHit(sources, pre + [tag], fields[j]).value
  {
    forall j: nat | j < |fields| {
      SourceHitSnoc(sources, pre, tag, fields[j]);
    }
  }

  class Binder {
    var sources: map<string, BindFunc>

    /** NewBinder: no sources. */
    constructor ()
      ensures sources == map[]
    {
      sources := map[];
    }

    /** AddSource registers `fn` under `tag`, replacing a source with the same tag. */
    method AddSource(tag: string, fn: BindFunc)
      modifies this
      ensures sources == old(sources)[tag := fn]
    {
      sources := sources[tag := fn];
    }

    /** Phase 1: the first non-empty value each field receives from the sources visited in `order`. */
    method CollectSourceValues(fields: seq<Field>, order: seq<string>) returns (values: map<nat, string>)
      requires forall k :: 0 <= k < |order| ==> order[k] in sources
      ensures forall j: nat :: j in values <==> j < |fields| && SourceHit(sources, order, fields[j]).Some?
      ensures forall j: nat :: j in values ==> values[j] == SourceHit(sources, order, fields[j]).value
    {
      values := map[];
      var k := 0;
      while k < |order|
        invariant 0 <= k <= |order|
        invariant forall j: nat :: j in values <==> j < |fields| && SourceHit(sources, order[..k], fields[j]).Some?
        invariant forall j: nat :: j in values ==> values[j] == SourceHit(sources, order[..k], fields[j]).value
      {
        assert order[..k + 1] == order[..k] + [order[k]];
        ghost var values0 := values;
        values := OfferAll(fields, order[k], sources[order[k]], values);
        PassHit(sources, order[..k], order[k], fields, values0, values);
        k := k + 1;
      }
      assert order[..k] == order;
    }

    /** One pass of phase 1: source `fn`, under `tag`, offers a value to every field that has none yet. */
    static method OfferAll(fields: seq<Field>, tag: string, fn: BindFunc, values0: map<nat, string>)
      returns (values: map<nat, string>)
      ensures forall j: nat :: j in values <==>
        j in values0 || (j < |fields| && TagGet(fields[j], tag) != "" && fn(TagGet(fields[j], tag)) != "")
      ensures forall j: nat :: j in values ==>
        values[j] == if j in values0 then values0[j] else fn(TagGet(fields[j], tag))
    {
      values := values0;
      var i := 0;
      while i < |fields|
        invariant 0 <= i <= |fields|
        invariant forall j: nat :: j in values <==>
          j in values0 || (j < i && TagGet(fields[j], tag) != "" && fn(TagGet(fields[j], tag)) != "")
        invariant forall j: nat :: j in values ==>
          values[j] == if j in values0 then values0[j] else fn(TagGet(fields[j], tag))
      {
        if i !in values {
          var key := TagGet(fields[i], tag);
          if key != "" {
            var v := fn(key);
            if v != "" {
              values := values[i := v];
            }
          }
        }
        i := i + 1;
      }
    }

    /** Phase 2: every field still without a value takes its `default` tag, when that is not empty. */
    static method AddDefaults(fields: seq<Field>, values0: map<nat, string>) returns (values: map<nat, string>)
      ensures forall j: nat :: j in values <==> j in values0 || (j < |fields| && TagGet(fields[j], "default") != "")
      ensures forall j: nat :: j in values ==>
        values[j] == if j in values0 then values0[j] else TagGet(fields[j], "default")
    {
      values := values0;
      var i := 0;
      while i < |fields|
        invariant 0 <= i <= |fields|
        invariant forall j: nat :: j in values <==> j in values0 || (j < i && TagGet(fields[j], "default") != "")
        invariant forall j: nat :: j in values ==>
          values[j] == if j in values0 then values0[j] else TagGet(fields[j], "default")
      {
        if i !in values {
          var d := TagGet(fields[i], "default");
          if d != "" {
            values := values[i := d];
          }
        }
        i := i + 1;
      }
    }

    /** Phases 1 and 2: the `values` map Bind stores in phase 3. */
    method CollectValues(fields: seq<Field>, order: seq<string>) returns (values: map<nat, string>)
      requires forall k :: 0 <= k < |order| ==> order[k] in sources
      ensures values == Values(sources, order, fields)
    {
      var hits := CollectSourceValues(fields, order);
      values := AddDefaults(fields, hits);
      assert forall j: nat :: j in values ==> values[j] == Values(sources, order, fields)[j];
    }

    /**
     * Bind, with `order` the map order in which the sources are visited and
     * `applyOrder` the map order in which recorded values are stored.
     */
    method Bind(target: Target, order: seq<string>, applyOrder: seq<nat>) returns (err: Option<BindError>)
      requires IsOrderOf(order, sources.Keys)
      requires target.StructPtr? ==> IsIndexOrder(applyOrder, |target.inst.fields|)
      modifies target.Footprint()
      ensures target.NotStructPtr? ==> err == Some(NotStructPointer)
      ensures target.StructPtr? ==>
        var o := ApplyValues(old(target.inst.fields), Values(sources, order, old(target.inst.fields)), applyOrder);
        target.inst.fields == o.fields && err == o.err
    {
      if target.NotStructPtr? {
        return Some(NotStructPointer);
      }
      var values := CollectValues(target.inst.fields, order);
      err := StoreValues(target.inst, values, applyOrder);
    }

    /** Phase 3: coerce and store the recorded values in `applyOrder`, stopping at the first failure. */
    method StoreValues(inst: Instance, values: map<nat, string>, applyOrder: seq<nat>) returns (err: Option<BindError>)
      requires forall k :: 0 <= k < |applyOrder| ==> applyOrder[k] < |inst.fields|
      modifies inst
      ensures Outcome(inst.fields, err) == ApplyValues(old(inst.fields), values, applyOrder)
    {
      var p := 0;
      while p < |applyOrder|
        invariant 0 <= p <= |applyOrder|
        invariant SameLayout(inst.fields, old(inst.fields))
        invariant ApplyValues(inst.fields, values, applyOrder[p..]) == ApplyValues(old(inst.fields), values, applyOrder)
      {
        var idx := applyOrder[p];
        assert applyOrder[p..][1..] == applyOrder[p + 1..];
        var f := inst.fields[idx];
        if idx in values && f.settable {
          var c := Coerce(f.typ, values[idx]);
          if c.Failure? {
            return Some(FieldFailed(f.name, c.error));
          }
          inst.fields := inst.fields[idx := f.(value := c.value)];
        }
        p := p + 1;
      }
      err := None;
    }

    /**
     * BindJSON hands the raw body to json.Unmarshal for the first settable
     * field tagged body:"json"; without such a field, or for a target that is
     * not a pointer to a struct, it does nothing and reports no error.
     */
    method BindJSON(target: Target, data: seq<bv8>, unmarshal: Unmarshal) returns (err: Option<string>)
      modifies target.Footprint()
      ensures target.NotStructPtr? ==> err == None
      ensures target.StructPtr? ==>
        JsonOutcome(target.inst.fields, err) == JsonBound(old(target.inst.fields), data, unmarshal)
    {
      if target.NotStructPtr? {
        return None;
      }
      var inst := target.inst;
      var i := 0;
      while i < |inst.fields|
        invariant 0 <= i <= |inst.fields|
        invariant inst.fields == old(inst.fields)
        invariant forall j :: 0 <= j < i ==> !(TagLookup(inst.fields[j], "body") == Some("json") && inst.fields[j].settable)
      {
        var f := inst.fields[i];
        if TagLookup(f, "body") == Some("json") && f.settable {
          assert JsonBodyIndex(inst.fields) == Some(i) by {
            var r := JsonBodyIndex(inst.fields);
            if r.None? || r.value < i {
              assert false;
            }
          }
          var d := unmarshal(f.value, f.typ, data);
          inst.fields := inst.fields[i := f.(value := d.value)];
          return d.err;
        }
        i := i + 1;
      }
      err := None;
    }
  }
}
