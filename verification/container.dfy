/**
 * The dependency container: a name-to-instance table whose `Inject` fills the
 * settable fields of a struct whose name is a key of the table, when the stored
 * instance's type is assignable to the field's type.
 */
module Injection {
  import opened Reflect

  /** Whether `Inject` writes field `f` from `providers`. */
  predicate Injects(providers: map<string, Value>, f: Field) {
    f.settable && f.name in providers && AssignableTo(providers[f.name].typ, f.typ)
  }

  function InjectField(providers: map<string, Value>, f: Field): Field {
    if Injects(providers, f) then f.(value := Of(providers[f.name])) else f
  }

  /** The fields after injection, field by field. */
  function Injected(providers: map<string, Value>, fields: seq<Field>): (r: seq<Field>)
    ensures SameLayout(r, fields)
    // a field named after a provider of an assignable type now holds that provider
    ensures forall i :: 0 <= i < |fields| && Injects(providers, fields[i]) ==>
      r[i].value == Of(providers[fields[i].name])
    // every other field (no provider of that name, a type that is not assignable,
    // or not settable) keeps its value
    ensures forall i :: 0 <= i < |fields| && !Injects(providers, fields[i]) ==> r[i] == fields[i]
  {
    seq(|fields|, i requires 0 <= i < |fields| => InjectField(providers, fields[i]))
  }

  /** Injecting twice from the same table is the same as injecting once. */
  lemma InjectIdempotent(providers: map<string, Value>, fields: seq<Field>)
    ensures Injected(providers, Injected(providers, fields)) == Injected(providers, fields)
  {
    var once := Injected(providers, fields);
    var twice := Injected(providers, once);
    forall i | 0 <= i < |fields| ensures twice[i] == once[i] {
      assert Injects(providers, once[i]) == Injects(providers, fields[i]);
    }
  }

  /** Only settable fields can change. */
  lemma InjectSkipsUnsettable(providers: map<string, Value>, fields: seq<Field>, i: nat)
    requires i < |fields| && !fields[i].settable
    ensures Injected(providers, fields)[i] == fields[i]
  {
  }

  /**
   * A provider of a defined type fills a field whose type is the unnamed literal
   * of the same underlying type (a `HandlerFunc` into a `func(...)` field), and
   * two distinct defined types never meet unless the field is an interface.
   */
  lemma InjectAcrossNames(providers: map<string, Value>, fields: seq<Field>, i: nat)
    requires i < |fields| && fields[i].settable && fields[i].name in providers
    ensures var v, t := providers[fields[i].name].typ, fields[i].typ;
      v.kind == t.kind && v.underlying == t.underlying && Unnamed(t) ==>
        Injected(providers, fields)[i].value == Of(providers[fields[i].name])
    ensures var v, t := providers[fields[i].name].typ, fields[i].typ;
      !Unnamed(v) && !Unnamed(t) && v != t && t.kind != InterfaceKind ==>
        Injected(providers, fields)[i] == fields[i]
  {
  }

  class Container {
    var providers: map<string, Value>

    /** NewContainer: an empty table. */
    constructor ()
      ensures providers == map[]
    {
      providers := map[];
    }

    /** Provide records `instance` under `name`, replacing an earlier one. */
    method Provide(name: string, instance: Value)
      modifies this
      ensures providers == old(providers)[name := instance]
    {
      providers := providers[name := instance];
    }

    /**
     * Inject walks the fields of a pointer-to-struct target and sets each
     * settable field from the provider of the same name when that provider's
     * type is assignable; any other target is left alone. The table is not
     * changed.
     */
    method Inject(target: Target)
      modifies target.Footprint()
      ensures target.StructPtr? ==> target.inst.fields == Injected(providers, old(target.inst.fields))
    {
      if target.NotStructPtr? {
        return;
      }
      var inst := target.inst;
      ghost var before := inst.fields;
      var i := 0;
      while i < |inst.fields|
        invariant 0 <= i <= |inst.fields| == |before|
        invariant inst.fields[..i] == Injected(providers, before)[..i]
        invariant inst.fields[i..] == before[i..]
      {
        ghost var pre := inst.fields;
        var f := inst.fields[i];
        if f.settable && f.name in providers {
          var dep := providers[f.name];
          if AssignableTo(dep.typ, f.typ) {
            inst.fields := inst.fields[i := f.(value := Of(dep))];
          }
        }
        assert inst.fields == pre[i := InjectField(providers, before[i])];
        i := i + 1;
      }
      assert inst.fields == inst.fields[..i];
    }

    /** Get: the instance stored under `name` and true, or nil and false. */
    method Get(name: string) returns (v: AnyValue, ok: bool)
      ensures ok <==> name in providers
      ensures ok ==> v == Of(providers[name])
      ensures !ok ==> v == Nil
    {
      if name in providers {
        v, ok := Of(providers[name]), true;
      } else {
        v, ok := Nil, false;
      }
    }
  }
}
