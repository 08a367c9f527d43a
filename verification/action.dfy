/**
 * The action transport: action name -> handler prototype and key binding ->
 * action name, and dispatch of a fresh, injected, payload-filled copy of a
 * prototype.
 */
module ActionTransport {
  import opened Wrappers
  import opened Reflect
  import opened GoStrings
  import opened Injection
  import opened Handlers

  // ---------------------------------------------------------------------
  // Payloads

  /** One field of a struct payload: name, declared type, exported or not, content. */
  datatype PayloadField = PayloadField(name: string, declared: GoType, exported: bool, value: AnyValue)

  /**
   * The payload handed to Dispatch, seen through one pointer indirection:
   * none (absent or nil), a map with string keys whose values have declared
   * type `elem`, a struct, or anything else.
   */
  datatype Payload =
    | NoPayload
    | MapPayload(elem: GoType, entries: map<string, AnyValue>)
    | StructPayload(fields: seq<PayloadField>)
    | OtherPayload

  /** The payload key `name` designates field `f`: its name up to case, or the first comma segment of its json tag. */
  predicate NameMatches(f: Field, name: string) {
    EqualFold(f.name, name) || (TagGet(f, "json") != "" && Split(TagGet(f, "json"), ',')[0] == name)
  }

  /** The first settable field that `name` designates. */
  function MatchIndex(fields: seq<Field>, name: string): (r: Option<nat>)
    ensures r.Some? ==> r.value < |fields| && fields[r.value].settable && NameMatches(fields[r.value], name)
    ensures r.Some? ==> forall j :: 0 <= j < r.value ==> !(fields[j].settable && NameMatches(fields[j], name))
    ensures r.None? ==> forall j :: 0 <= j < |fields| ==> !(fields[j].settable && NameMatches(fields[j], name))
  {
    if fields == [] then None
    else if fields[0].settable && NameMatches(fields[0], name) then Some(0)
    else match MatchIndex(fields[1..], name)
      case None => None
      case Some(i) => Some(i + 1)
  }

  /** A value of declared type `declared` may be stored in `f`: same type, or an interface whose dynamic type is `f`'s type. */
  predicate Compatible(f: Field, declared: GoType, value: AnyValue) {
    f.typ == declared || (declared.kind == InterfaceKind && TypeOf(value) == Some(f.typ))
  }

  /** setFieldByNameOrTag: only the first designated field is considered, and set only when the types fit. */
  function SetByName(fields: seq<Field>, name: string, declared: GoType, value: AnyValue): (r: seq<Field>)
    ensures SameLayout(r, fields)
    ensures MatchIndex(fields, name).None? ==> r == fields
    ensures forall j :: 0 <= j < |fields| && Some(j) != MatchIndex(fields, name) ==> r[j] == fields[j]
    ensures MatchIndex(fields, name).Some? ==>
      var i := MatchIndex(fields, name).value;
      r[i].value == if Compatible(fields[i], declared, value) then value else fields[i].value
  {
    match MatchIndex(fields, name)
    case None => fields
    case Some(i) => if Compatible(fields[i], declared, value) then fields[i := fields[i].(value := value)] else fields
  }

  /** The map branch of applyPayload, keys visited in `keys`. */
  function ApplyMapEntries(fields: seq<Field>, elem: GoType, entries: map<string, AnyValue>, keys: seq<string>): (r: seq<Field>)
    requires forall k :: 0 <= k < |keys| ==> keys[k] in entries
    ensures SameLayout(r, fields)
    decreases |keys|
  {
    if keys == [] then fields
    else ApplyMapEntries(SetByName(fields, keys[0], elem, entries[keys[0]]), elem, entries, keys[1..])
  }

  /** The struct branch of applyPayload, skipping unexported payload fields. */
  function ApplyStructFields(fields: seq<Field>, src: seq<PayloadField>): (r: seq<Field>)
    ensures SameLayout(r, fields)
    decreases |src|
  {
    if src == [] then fields
    else
      var next := if src[0].exported then SetByName(fields, src[0].name, src[0].declared, src[0].value) else fields;
      ApplyStructFields(next, src[1..])
  }

  /** Matching reads only the layout: fields that differ only in their values match every name alike. */
  lemma {:induction false} MatchIndexLayout(a: seq<Field>, b: seq<Field>, name: string)
    requires SameLayout(a, b)
    ensures MatchIndex(a, name) == MatchIndex(b, name)
    decreases |a|
  {
    if a != [] {
      assert a[0].name == b[0].name && a[0].tags == b[0].tags && a[0].settable == b[0].settable;
      assert TagGet(a[0], "json") == TagGet(b[0], "json");
      MatchIndexLayout(a[1..], b[1..], name);
    }
  }

  /** No key of `keys` designates field i. */
  predicate Untargeted(fields: seq<Field>, keys: seq<string>, i: nat) {
    forall j :: 0 <= j < |keys| ==> MatchIndex(fields, keys[j]) != Some(i)
  }

  /** keys[p] is the only key of `keys` that designates field i. */
  predicate SoleTarget(fields: seq<Field>, keys: seq<string>, i: nat, p: nat) {
    p < |keys| && MatchIndex(fields, keys[p]) == Some(i) &&
    forall j :: 0 <= j < |keys| && j != p ==> MatchIndex(fields, keys[j]) != Some(i)
  }

  /** The value field `f` holds after a store of `value`, declared `declared`, that designates it. */
  function Stored(f: Field, declared: GoType, value: AnyValue): AnyValue {
    if Compatible(f, declared, value) then value else f.value
  }

  /** A field that no key designates keeps its value. */
  lemma {:induction false} MapEntriesUntouched(fields: seq<Field>, elem: GoType, entries: map<string, AnyValue>,
                                               keys: seq<string>, i: nat)
    requires forall k :: 0 <= k < |keys| ==> keys[k] in entries
    requires i < |fields| && Untargeted(fields, keys, i)
    ensures ApplyMapEntries(fields, elem, entries, keys)[i] == fields[i]
    decreases |keys|
  {
    if keys != [] {
      var next := SetByName(fields, keys[0], elem, entries[keys[0]]);
      assert next[i] == fields[i];
      forall j | 0 <= j < |keys[1..]| ensures MatchIndex(next, keys[1..][j]) != Some(i) {
        MatchIndexLayout(next, fields, keys[1..][j]);
        assert keys[1..][j] == keys[j + 1];
      }
      MapEntriesUntouched(next, elem, entries, keys[1..], i);
    }
  }

  /** A field that exactly one key designates holds that key's value when the types fit, its own value otherwise. */
  lemma {:induction false} MapEntrySole(fields: seq<Field>, elem: GoType, entries: map<string, AnyValue>,
                                        keys: seq<string>, i: nat, p: nat)
    requires forall k :: 0 <= k < |keys| ==> keys[k] in entries
    requires i < |fields| && SoleTarget(fields, keys, i, p)
    ensures ApplyMapEntries(fields, elem, entries, keys)[i].value == Stored(fields[i], elem, entries[keys[p]])
    decreases |keys|
  {
    var next := SetByName(fields, keys[0], elem, entries[keys[0]]);
    if p == 0 {
      forall j | 0 <= j < |keys[1..]| ensures MatchIndex(next, keys[1..][j]) != Some(i) {
        MatchIndexLayout(next, fields, keys[1..][j]);
        assert keys[1..][j] == keys[j + 1];
      }
      MapEntriesUntouched(next, elem, entries, keys[1..], i);
    } else {
      assert next[i] == fields[i];
      forall j | 0 <= j < |keys[1..]| ensures MatchIndex(next, keys[1..][j]) == MatchIndex(fields, keys[j + 1]) {
        MatchIndexLayout(next, fields, keys[1..][j]);
        assert keys[1..][j] == keys[j + 1];
      }
      assert SoleTarget(next, keys[1..], i, p - 1);
      MapEntrySole(next, elem, entries, keys[1..], i, p - 1);
    }
  }

  /** No exported payload field designates field i. */
  predicate NoFieldTargets(fields: seq<Field>, src: seq<PayloadField>, i: nat) {
    forall q :: 0 <= q < |src| && src[q].exported ==> MatchIndex(fields, src[q].name) != Some(i)
  }

  /** src[p] is the only exported payload field that designates field i. */
  predicate OnlyFieldTargets(fields: seq<Field>, src: seq<PayloadField>, p: nat, i: nat) {
    p < |src| && src[p].exported && MatchIndex(fields, src[p].name) == Some(i) &&
    forall q :: 0 <= q < |src| && q != p && src[q].exported ==> MatchIndex(fields, src[q].name) != Some(i)
  }

  /** A field that no exported payload field designates keeps its value. */
  lemma {:induction false} StructFieldsUntouched(fields: seq<Field>, src: seq<PayloadField>, i: nat)
    requires i < |fields| && NoFieldTargets(fields, src, i)
    ensures ApplyStructFields(fields, src)[i] == fields[i]
    decreases |src|
  {
    if src != [] {
      var next := if src[0].exported then SetByName(fields, src[0].name, src[0].declared, src[0].value) else fields;
      assert next[i] == fields[i];
      forall q | 0 <= q < |src[1..]| && src[1..][q].exported ensures MatchIndex(next, src[1..][q].name) != Some(i) {
        MatchIndexLayout(next, fields, src[1..][q].name);
        assert src[1..][q] == src[q + 1];
      }
      StructFieldsUntouched(next, src[1..], i);
    }
  }

  /**
   * A field that exactly one exported payload field designates holds that
   * payload field's value when the types fit, its own value otherwise.
   */
  lemma {:induction false} StructFieldSole(fields: seq<Field>, src: seq<PayloadField>, p: nat, i: nat)
    requires i < |fields| && OnlyFieldTargets(fields, src, p, i)
    ensures ApplyStructFields(fields, src)[i].value == Stored(fields[i], src[p].declared, src[p].value)
    decreases |src|
  {
    var next := if src[0].exported then SetByName(fields, src[0].name, src[0].declared, src[0].value) else fields;
    if p == 0 {
      forall q | 0 <= q < |src[1..]| && src[1..][q].exported ensures MatchIndex(next, src[1..][q].name) != Some(i) {
        MatchIndexLayout(next, fields, src[1..][q].name);
        assert src[1..][q] == src[q + 1];
      }
      StructFieldsUntouched(next, src[1..], i);
    } else {
      assert next[i] == fields[i];
      forall q | 0 <= q < |src[1..]| ensures MatchIndex(next, src[1..][q].name) == MatchIndex(fields, src[q + 1].name) {
        MatchIndexLayout(next, fields, src[1..][q].name);
        assert src[1..][q] == src[q + 1];
      }
      assert OnlyFieldTargets(next, src[1..], p - 1, i);
      StructFieldSole(next, src[1..], p - 1, i);
    }
  }

  /** No key of the map designates field i. */
  predicate NoKeyTargets(fields: seq<Field>, entries: map<string, AnyValue>, i: nat) {
    forall k :: k in entries ==> MatchIndex(fields, k) != Some(i)
  }

  /** k is the only key of the map that designates field i. */
  predicate OnlyKeyTargets(fields: seq<Field>, entries: map<string, AnyValue>, k: string, i: nat) {
    k in entries && MatchIndex(fields, k) == Some(i) &&
    forall k' :: k' in entries && k' != k ==> MatchIndex(fields, k') != Some(i)
  }

  /** In every map order: untargeted fields are kept, and a field with one designating key gets that key's value. */
  lemma MapPayloadWrites(fields: seq<Field>, elem: GoType, entries: map<string, AnyValue>, keys: seq<string>)
    requires forall k :: 0 <= k < |keys| ==> keys[k] in entries
    ensures IsOrderOf(keys, entries.Keys) ==> forall i :: 0 <= i < |fields| && NoKeyTargets(fields, entries, i) ==>
      ApplyMapEntries(fields, elem, entries, keys)[i] == fields[i]
    ensures IsOrderOf(keys, entries.Keys) ==> forall i, k :: 0 <= i < |fields| && OnlyKeyTargets(fields, entries, k, i) ==>
      ApplyMapEntries(fields, elem, entries, keys)[i].value == Stored(fields[i], elem, entries[k])
  {
    if !IsOrderOf(keys, entries.Keys) {
      return;
    }
    forall i | 0 <= i < |fields| && NoKeyTargets(fields, entries, i)
      ensures ApplyMapEntries(fields, elem, entries, keys)[i] == fields[i]
    {
      MapEntriesUntouched(fields, elem, entries, keys, i);
    }
    forall i, k | 0 <= i < |fields| && OnlyKeyTargets(fields, entries, k, i)
      ensures ApplyMapEntries(fields, elem, entries, keys)[i].value == Stored(fields[i], elem, entries[k])
    {
      var p :| 0 <= p < |keys| && keys[p] == k;
      assert SoleTarget(fields, keys, i, p);
      MapEntrySole(fields, elem, entries, keys, i, p);
    }
  }

  /** applyPayload: the fields after copying the payload's matching entries. */
  function PayloadApplied(fields: seq<Field>, payload: Payload, keys: seq<string>): (r: seq<Field>)
    requires payload.MapPayload? ==> forall k :: 0 <= k < |keys| ==> keys[k] in payload.entries
    ensures SameLayout(r, fields)
    ensures payload.NoPayload? || payload.OtherPayload? ==> r == fields
    ensures payload.MapPayload? && IsOrderOf(keys, payload.entries.Keys) ==>
      forall i :: 0 <= i < |fields| && NoKeyTargets(fields, payload.entries, i) ==> r[i] == fields[i]
    ensures payload.MapPayload? && IsOrderOf(keys, payload.entries.Keys) ==>
      forall i, k :: 0 <= i < |fields| && OnlyKeyTargets(fields, payload.entries, k, i) ==>
        r[i].value == Stored(fields[i], payload.elem, payload.entries[k])
    ensures payload.StructPayload? ==>
      forall i :: 0 <= i < |fields| && NoFieldTargets(fields, payload.fields, i) ==> r[i] == fields[i]
    ensures payload.StructPayload? ==>
      forall i: nat, p: nat :: i < |fields| && OnlyFieldTargets(fields, payload.fields, p, i) ==>
        r[i].value == Stored(fields[i], payload.fields[p].declared, payload.fields[p].value)
  {
    match payload
    case NoPayload => fields
    case OtherPayload => fields
    case MapPayload(elem, entries) =>
      MapPayloadWrites(fields, elem, entries, keys);
      ApplyMapEntries(fields, elem, entries, keys)
    case StructPayload(src) =>
      StructPayloadWrites(fields, src);
      ApplyStructFields(fields, src)
  }

  /** Untargeted fields are kept, and a field with one designating exported payload field gets its value. */
  lemma StructPayloadWrites(fields: seq<Field>, src: seq<PayloadField>)
    ensures forall i :: 0 <= i < |fields| && NoFieldTargets(fields, src, i) ==> ApplyStructFields(fields, src)[i] == fields[i]
    ensures forall i: nat, p: nat :: i < |fields| && OnlyFieldTargets(fields, src, p, i) ==>
      ApplyStructFields(fields, src)[i].value == Stored(fields[i], src[p].declared, src[p].value)
  {
    forall i | 0 <= i < |fields| && NoFieldTargets(fields, src, i)
      ensures ApplyStructFields(fields, src)[i] == fields[i]
    {
      StructFieldsUntouched(fields, src, i);
    }
    forall i: nat, p: nat | i < |fields| && OnlyFieldTargets(fields, src, p, i)
      ensures ApplyStructFields(fields, src)[i].value == Stored(fields[i], src[p].declared, src[p].value)
    {
      StructFieldSole(fields, src, p, i);
    }
  }

  /**
   * Two keys designating one field make the result depend on the map order:
   * with entries "name" and "Name" for a string field `Name`, the key visited
   * last wins.
   */
  lemma MapOrderMatters()
    ensures
      var str := GoType("string", StringKind, "string", {});
      var dst := [Field("Name", str, map[], true, Of(Value(str, Str(""))))];
      var a, b := Of(Value(str, Str("a"))), Of(Value(str, Str("b")));
      var entries := map["name" := a, "Name" := b];
      ApplyMapEntries(dst, str, entries, ["name", "Name"])[0].value == b &&
      ApplyMapEntries(dst, str, entries, ["Name", "name"])[0].value == a
  {
    var str := GoType("string", StringKind, "string", {});
    var dst := [Field("Name", str, map[], true, Of(Value(str, Str(""))))];
    assert EqualFold("Name", "name") by {
      assert LowerChar('N') == 'n';
    }
    assert EqualFold("Name", "Name");
    assert MatchIndex(dst, "name") == Some(0);
    assert MatchIndex(dst, "Name") == Some(0);
  }

  /** Keys that designate no field leave the instance unchanged. */
  lemma {:induction false} UnmatchedKeysIgnored(fields: seq<Field>, elem: GoType, entries: map<string, AnyValue>, keys: seq<string>)
    requires forall k :: 0 <= k < |keys| ==> keys[k] in entries
    requires forall k :: 0 <= k < |keys| ==> MatchIndex(fields, keys[k]).None?
    ensures ApplyMapEntries(fields, elem, entries, keys) == fields
  {
    if keys != [] {
      UnmatchedKeysIgnored(fields, elem, entries, keys[1..]);
    }
  }

  /** Matching stops at the first designated field even when its type does not fit and a later one's would. */
  lemma FirstMatchDecides(fields: seq<Field>, name: string, declared: GoType, value: AnyValue, i: nat, j: nat)
    requires i < j < |fields|
    requires fields[i].settable && NameMatches(fields[i], name) && !Compatible(fields[i], declared, value)
    requires fields[j].settable && NameMatches(fields[j], name) && Compatible(fields[j], declared, value)
    ensures SetByName(fields, name, declared, value)[j] == fields[j]
  {
  }

  /** The json tag's first comma segment designates the field exactly; options after the comma do not matter. */
  lemma JsonTagNameMatches(f: Field, name: string, opts: string)
    requires ',' !in name && name != ""
    requires TagGet(f, "json") == name + "," + opts
    ensures NameMatches(f, name)
  {
    SplitFirst(name, ',', opts);
    assert name + "," + opts == name + [','] + opts;
  }

  // ---------------------------------------------------------------------
  // applyPayload as written: unexported struct payload fields

  datatype Attempt = Attempt(fields: seq<Field>, panicked: bool)

  /**
   * The struct branch of applyPayload as written in Go: unexported
   * payload fields are matched too, and storing one (reflect's Value.Set, or
   * Value.Interface in the interface case) panics on a value read through an
   * unexported field.
   */
  function ApplyStructFieldsAsWritten(fields: seq<Field>, src: seq<PayloadField>): (a: Attempt)
    ensures SameLayout(a.fields, fields)
    decreases |src|
  {
    if src == [] then Attempt(fields, false)
    else
      var e := src[0];
      match MatchIndex(fields, e.name)
      case None => ApplyStructFieldsAsWritten(fields, src[1..])
      case Some(i) =>
        if !e.exported && (fields[i].typ == e.declared || e.declared.kind == InterfaceKind) then Attempt(fields, true)
        else ApplyStructFieldsAsWritten(SetByName(fields, e.name, e.declared, e.value), src[1..])
  }

  /**
   * A struct payload with an unexported field `name` of type string, sent to
   * a handler with a settable string field `Name`, makes Go's applyPayload panic.
   */
  lemma UnexportedPayloadFieldPanics()
    ensures
      var str := GoType("string", StringKind, "string", {});
      var dst := [Field("Name", str, map[], true, Of(Value(str, Str(""))))];
      var src := [PayloadField("name", str, false, Of(Value(str, Str("doc.txt"))))];
      ApplyStructFieldsAsWritten(dst, src).panicked
  {
    var str := GoType("string", StringKind, "string", {});
    var dst := [Field("Name", str, map[], true, Of(Value(str, Str(""))))];
    assert EqualFold("Name", "name") by {
      assert LowerChar('N') == 'n';
    }
    assert MatchIndex(dst, "name") == Some(0);
  }

  /**
   * Whenever Go's applyPayload does not panic, the corrected struct branch (which
   * skips unexported payload fields) produces exactly its result.
   */
  lemma {:induction false} CorrectedAgreesWithoutPanic(fields: seq<Field>, src: seq<PayloadField>)
    requires !ApplyStructFieldsAsWritten(fields, src).panicked
    ensures ApplyStructFields(fields, src) == ApplyStructFieldsAsWritten(fields, src).fields
    decreases |src|
  {
    if src != [] {
      var e := src[0];
      match MatchIndex(fields, e.name)
      case None =>
        assert SetByName(fields, e.name, e.declared, e.value) == fields;
        CorrectedAgreesWithoutPanic(fields, src[1..]);
      case Some(i) =>
        if !e.exported {
          assert !Compatible(fields[i], e.declared, e.value);
          assert SetByName(fields, e.name, e.declared, e.value) == fields;
        }
        CorrectedAgreesWithoutPanic(SetByName(fields, e.name, e.declared, e.value), src[1..]);
    }
  }

  /** An unexported payload field never reaches the instance in the corrected branch. */
  lemma {:induction false} UnexportedFieldsIgnored(fields: seq<Field>, src: seq<PayloadField>)
    requires forall k :: 0 <= k < |src| ==> !src[k].exported
    ensures ApplyStructFields(fields, src) == fields
  {
    if src != [] {
      UnexportedFieldsIgnored(fields, src[1..]);
    }
  }

  // ---------------------------------------------------------------------
  // Dispatch

  /** Why Dispatch or DispatchKey returned an error. */
  datatype DispatchError = ActionNotFound(action: string) | NoActionForKey(key: string) | HandlerFailed(cause: HandlerError)

  /** A dispatch's `(any, error)` pair. */
  datatype Dispatched = Dispatched(result: AnyValue, err: Option<DispatchError>)

  /** The pair Dispatch returns for a handler reply. */
  function FromReply(r: Reply): Dispatched {
    Dispatched(r.result, if r.err.Some? then Some(HandlerFailed(r.err.value)) else None)
  }

  /** Handle run on a copy of the prototype's fields, injected and then filled from the payload. */
  function Run(typeName: string, prototype: seq<Field>, providers: map<string, Value>,
               payload: Payload, keys: seq<string>, handle: HandleFn): Dispatched
    requires payload.MapPayload? ==> forall k :: 0 <= k < |keys| ==> keys[k] in payload.entries
  {
    FromReply(handle(typeName, PayloadApplied(Injected(providers, prototype), payload, keys)))
  }

  /** The Register tags of a prototype: `action` and `keys` of its first marker field. */
  function ActionName(fields: seq<Field>): string { PatternTag(fields, "action") }
  function KeyBinding(fields: seq<Field>): string { PatternTag(fields, "keys") }

  class Transport {
    const container: Container
    var logger: Logger
    var handlers: map<string, Instance>
    var keys: map<string, string>
    var bus: Bus

    /** New: an empty transport with its own container, the Nop logger and the default bus. */
    constructor ()
      ensures fresh(container) && container.providers == map[]
      ensures logger == Nop && handlers == map[] && keys == map[] && bus == DefaultBus
    {
      container := new Container();
      logger := Nop;
      handlers := map[];
      keys := map[];
      bus := DefaultBus;
    }

    /** Provide forwards to the container. */
    method Provide(name: string, instance: Value)
      modifies container
      ensures container.providers == old(container.providers)[name := instance]
    {
      container.Provide(name, instance);
    }

    /**
     * Register indexes a prototype under its action name (the last
     * registration of a name wins) and, when its `keys` tag is non-empty,
     * binds that key to the action. A prototype that is not a pointer to a
     * struct, or has no non-empty `action` tag on its first marker field,
     * makes Go's Register panic; callers must not pass one.
     */
    method Register(prototype: Target)
      requires prototype.StructPtr? && ActionName(prototype.inst.fields) != ""
      modifies this
      ensures handlers == old(handlers)[ActionName(prototype.inst.fields) := prototype.inst]
      ensures keys == if KeyBinding(prototype.inst.fields) != ""
        then old(keys)[KeyBinding(prototype.inst.fields) := ActionName(prototype.inst.fields)]
        else old(keys)
      ensures logger == old(logger) && bus == old(bus)
    {
      var fields := prototype.inst.fields;
      var i := 0;
      while i < |fields| && fields[i].typ != PatternType
        invariant 0 <= i <= |fields|
        invariant forall j :: 0 <= j < i ==> fields[j].typ != PatternType
      {
        i := i + 1;
      }
      var actionName, keyBinding := "", "";
      if i < |fields| {
        assert PatternIndex(fields) == Some(i);
        actionName := TagGet(fields[i], "action");
        keyBinding := TagGet(fields[i], "keys");
      }
      handlers := handlers[actionName := prototype.inst];
      if keyBinding != "" {
        keys := keys[keyBinding := actionName];
      }
    }

    /** applyPayload into a dispatch instance, map keys visited in `keyOrder`. */
    method ApplyPayload(inst: Instance, payload: Payload, keyOrder: seq<string>)
      requires payload.MapPayload? ==> IsOrderOf(keyOrder, payload.entries.Keys)
      modifies inst
      ensures inst.fields == PayloadApplied(old(inst.fields), payload, keyOrder)
    {
      match payload
      case NoPayload =>
      case OtherPayload =>
      case MapPayload(elem, entries) =>
        var k := 0;
        while k < |keyOrder|
          invariant 0 <= k <= |keyOrder|
          invariant ApplyMapEntries(inst.fields, elem, entries, keyOrder[k..]) ==
            ApplyMapEntries(old(inst.fields), elem, entries, keyOrder)
        {
          assert keyOrder[k..][1..] == keyOrder[k + 1..];
          SetFieldByNameOrTag(inst, keyOrder[k], elem, entries[keyOrder[k]]);
          k := k + 1;
        }
      case StructPayload(src) =>
        var k := 0;
        while k < |src|
          invariant 0 <= k <= |src|
          invariant ApplyStructFields(inst.fields, src[k..]) == ApplyStructFields(old(inst.fields), src)
        {
          assert src[k..][1..] == src[k + 1..];
          if src[k].exported {
            SetFieldByNameOrTag(inst, src[k].name, src[k].declared, src[k].value);
          }
          k := k + 1;
        }
    }

    /** setFieldByNameOrTag: store `value` into the first settable field `name` designates, if its type fits. */
    method SetFieldByNameOrTag(inst: Instance, name: string, declared: GoType, value: AnyValue)
      modifies inst
      ensures inst.fields == SetByName(old(inst.fields), name, declared, value)
    {
      var i := 0;
      while i < |inst.fields|
        invariant 0 <= i <= |inst.fields|
        invariant inst.fields == old(inst.fields)
        invariant forall j :: 0 <= j < i ==> !(inst.fields[j].settable && NameMatches(inst.fields[j], name))
      {
        var f := inst.fields[i];
        if f.settable && NameMatches(f, name) {
          assert MatchIndex(inst.fields, name) == Some(i) by {
            var r := MatchIndex(inst.fields, name);
            if r.None? || r.value < i {
              assert false;
            }
          }
          if Compatible(f, declared, value) {
            inst.fields := inst.fields[i := f.(value := value)];
          }
          return;
        }
        i := i + 1;
      }
    }

    /**
     * Dispatch: an unregistered name is a not-found error with a nil result
     * and no handler run; otherwise Handle runs on a fresh copy of the
     * prototype, injected and filled from the payload. Nothing the transport
     * holds is modified, the prototype included.
     */
    method Dispatch(action: string, payload: Payload, keyOrder: seq<string>, handle: HandleFn)
      returns (res: AnyValue, err: Option<DispatchError>)
      requires payload.MapPayload? ==> IsOrderOf(keyOrder, payload.entries.Keys)
      ensures action !in handlers ==> res == Nil && err == Some(ActionNotFound(action))
      ensures action in handlers ==>
        Dispatched(res, err) ==
          Run(handlers[action].typeName, handlers[action].fields, container.providers, payload, keyOrder, handle)
    {
      if action !in handlers {
        return Nil, Some(ActionNotFound(action));
      }
      var prototype := handlers[action];
      var instance := prototype.Copy();
      container.Inject(StructPtr(instance));
      ApplyPayload(instance, payload, keyOrder);
      var reply := handle(instance.typeName, instance.fields);
      var d := FromReply(reply);
      res, err := d.result, d.err;
    }

    /** DispatchKey: an unbound key is a not-found error; otherwise Dispatch of the bound action without payload. */
    method DispatchKey(key: string, handle: HandleFn) returns (res: AnyValue, err: Option<DispatchError>)
      ensures key !in keys ==> res == Nil && err == Some(NoActionForKey(key))
      ensures key in keys && keys[key] !in handlers ==> res == Nil && err == Some(ActionNotFound(keys[key]))
      ensures key in keys && keys[key] in handlers ==>
        Dispatched(res, err) ==
          Run(handlers[keys[key]].typeName, handlers[keys[key]].fields, container.providers, NoPayload, [], handle)
    {
      if key !in keys {
        return Nil, Some(NoActionForKey(key));
      }
      res, err := Dispatch(keys[key], NoPayload, [], handle);
    }

    /** Actions: every registered action name exactly once, in map order. */
    method Actions() returns (names: seq<string>)
      ensures IsOrderOf(names, handlers.Keys)
    {
      names := [];
      var rest := handlers.Keys;
      while rest != {}
        invariant rest <= handlers.Keys
        invariant forall i, j :: 0 <= i < j < |names| ==> names[i] != names[j]
        invariant forall k :: 0 <= k < |names| ==> names[k] in handlers && names[k] !in rest
        invariant forall n :: n in handlers && n !in rest ==> n in names
        decreases rest
      {
        var n :| n in rest;
        names := names + [n];
        rest := rest - {n};
      }
    }

    /** KeyBindings: a copy of the key table. */
    method KeyBindings() returns (bindings: map<string, string>)
      ensures bindings == keys
    {
      bindings := map[];
      var rest := keys.Keys;
      while rest != {}
        invariant rest <= keys.Keys
        invariant bindings.Keys == keys.Keys - rest
        invariant forall k :: k in bindings ==> bindings[k] == keys[k]
        decreases rest
      {
        var k :| k in rest;
        bindings := bindings[k := keys[k]];
        rest := rest - {k};
      }
    }
  }
}
