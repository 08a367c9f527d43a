/**
 * The v1 router: `Build` concatenates the registered routes; `New` builds
 * the repository, service, middleware and handler instance tables from the
 * registry, then registers every route that is not disabled through the
 * environment and whose "Type.Method" handler name resolves, wrapped in its
 * middleware.
 */
module LegacyRouter {
  import opened Wrappers
  import opened Reflect
  import opened GoStrings
  import opened Strconv
  import opened Handlers
  import opened Registry

  /** Router options; `onError` says whether an OnError callback is set. */
  datatype Options = Options(sessionDuration: int, logger: Option<Logger>, onError: bool, skipAutoWire: bool)

  /** The options New works with: a nil logger becomes Nop. */
  function WithDefaults(opt: Options): (o: Options)
    ensures o.logger.Some?
    ensures opt.logger.Some? ==> o == opt
    ensures opt.logger.None? ==> o == opt.(logger := Some(Nop))
  {
    if opt.logger.None? then opt.(logger := Some(Nop)) else opt
  }

  // ---------------------------------------------------------------------
  // Build

  /** The routes of the providers, provider by provider. */
  function Concat(providers: seq<RouteProvider>): seq<Route>
    decreases |providers|
  {
    if providers == [] then [] else providers[0]() + Concat(providers[1..])
  }

  /** One more provider adds its routes at the end, after all earlier ones. */
  lemma {:induction false} ConcatAppend(providers: seq<RouteProvider>, p: RouteProvider)
    ensures Concat(providers + [p]) == Concat(providers) + p()
    decreases |providers|
  {
    if providers != [] {
      assert (providers + [p])[1..] == providers[1..] + [p];
      ConcatAppend(providers[1..], p);
    }
  }

  /** Build: every route provider's routes, in registration order. */
  method Build(reg: Registry) returns (out: seq<Route>)
    ensures out == Concat(reg.routeProviders)
  {
    out := [];
    var i := 0;
    while i < |reg.routeProviders|
      invariant 0 <= i <= |reg.routeProviders|
      invariant out == Concat(reg.routeProviders[..i])
    {
      ConcatAppend(reg.routeProviders[..i], reg.routeProviders[i]);
      assert reg.routeProviders[..i + 1] == reg.routeProviders[..i] + [reg.routeProviders[i]];
      out := out + reg.routeProviders[i]();
      i := i + 1;
    }
    assert reg.routeProviders[..i] == reg.routeProviders;
  }

  // ---------------------------------------------------------------------
  // Disable switches

  const ModuleOffPrefix := "GMR_MOD_OFF_"
  const HandlerOffPrefix := "GMR_HAND_OFF_"

  /** The module of a handler name: the text before its first dot. */
  function ModuleOf(handlerName: string): string { Split(handlerName, '.')[0] }

  /** The variable that disables a whole module. */
  function ModuleKey(handlerName: string): string { ModuleOffPrefix + ToUpper(ModuleOf(handlerName)) }

  /** The variable that disables one handler: its name upper-cased, dots turned into underscores. */
  function HandlerKey(handlerName: string): string {
    HandlerOffPrefix + ToUpper(ReplaceChar(handlerName, '.', '_'))
  }

  /** A variable disables when it is set and parses as true. */
  predicate Disabled(env: string -> string, key: string) {
    env(key) != "" && ParseBool(env(key)) == Success(true)
  }

  /** Exactly the true spellings of ParseBool disable; empty, false or unparsable values do not. */
  lemma DisabledIff(env: string -> string, key: string)
    ensures Disabled(env, key) <==> env(key) in TrueSpellings
  {
  }

  /** The module key of "T.rest" is built from T alone, however many dots follow. */
  lemma ModuleKeyOfQualified(t: string, rest: string)
    requires '.' !in t
    ensures ModuleKey(t + "." + rest) == ModuleOffPrefix + ToUpper(t)
  {
    SplitFirst(t, '.', rest);
    assert t + "." + rest == t + ['.'] + rest;
  }

  /** The character a handler name contributes to its switch: dots become underscores, then upper case. */
  function KeyChar(c: char): char {
    UpperChar(if c == '.' then '_' else c)
  }

  /** Two handler names share a switch exactly when they agree up to ASCII case and the dot/underscore difference. */
  lemma HandlerKeyShared(a: string, b: string)
    ensures HandlerKey(a) == HandlerKey(b) <==> |a| == |b| && forall i :: 0 <= i < |a| ==> KeyChar(a[i]) == KeyChar(b[i])
  {
    var ka, kb := ToUpper(ReplaceChar(a, '.', '_')), ToUpper(ReplaceChar(b, '.', '_'));
    assert forall i :: 0 <= i < |a| ==> ka[i] == KeyChar(a[i]);
    assert forall i :: 0 <= i < |b| ==> kb[i] == KeyChar(b[i]);
    if HandlerKey(a) == HandlerKey(b) {
      assert ka == HandlerKey(a)[|HandlerOffPrefix|..];
      assert kb == HandlerKey(b)[|HandlerOffPrefix|..];
    }
    if |a| == |b| && forall i :: 0 <= i < |a| ==> KeyChar(a[i]) == KeyChar(b[i]) {
      assert ka == kb;
    }
  }

  /** Case and the dot/underscore difference are lost: "ping.Get" and "PING_GET" share one switch. */
  lemma HandlerKeyConflates()
    ensures HandlerKey("ping.Get") == HandlerKey("PING_GET") == "GMR_HAND_OFF_PING_GET"
  {
    assert ReplaceChar("ping.Get", '.', '_') == "ping_Get";
    assert ToUpper("ping_Get") == "PING_GET";
    assert ReplaceChar("PING_GET", '.', '_') == "PING_GET";
    assert ToUpper("PING_GET") == "PING_GET";
  }

  // ---------------------------------------------------------------------
  // Handler resolution and middleware

  /** A method's parameter and result types, by name. */
  datatype Signature = Signature(params: seq<string>, results: seq<string>)

  /** `func(*fasthttp.RequestCtx)`. */
  const RequestHandlerSig := Signature(["*fasthttp.RequestCtx"], [])

  /** reflect's MethodByName on an instance: the method's signature, None when it has no such method. */
  type MethodLookup = (AnyValue, string) -> Option<Signature>

  datatype ResolveError =
    | InvalidName(name: string)
    | HandlerNotFound(instance: string)
    | MethodNotFound(methodName: string, owner: AnyValue)
    | IncompatibleSignature(name: string)

  /** A fasthttp handler: a bound method, or a middleware component applied to a handler. */
  datatype V1Handler = BoundMethod(instance: AnyValue, methodName: string) | Applied(component: AnyValue, permissions: seq<string>, next: V1Handler)

  /** resolveHandler: "Type.Method" to the method of the named handler instance. */
  function ResolveHandler(hmap: Instances, fq: string, lookup: MethodLookup): (r: Result<V1Handler, ResolveError>)
    ensures r.Success? ==>
              r.value.BoundMethod? && r.value.instance in hmap.Values &&
              lookup(r.value.instance, r.value.methodName) == Some(RequestHandlerSig)
  {
    var parts := Split(fq, '.');
    if |parts| != 2 then Failure(InvalidName(fq))
    else if parts[0] !in hmap then Failure(HandlerNotFound(parts[0]))
    else match lookup(hmap[parts[0]], parts[1])
      case None => Failure(MethodNotFound(parts[1], hmap[parts[0]]))
      case Some(sig) =>
        if sig != RequestHandlerSig then Failure(IncompatibleSignature(fq))
        else Success(BoundMethod(hmap[parts[0]], parts[1]))
  }

  /** A well-formed name of an existing instance and request-handler method resolves to that method. */
  lemma ResolveAccepts(hmap: Instances, t: string, m: string, lookup: MethodLookup)
    requires '.' !in t && '.' !in m
    requires t in hmap && lookup(hmap[t], m) == Some(RequestHandlerSig)
    ensures ResolveHandler(hmap, t + "." + m, lookup) == Success(BoundMethod(hmap[t], m))
  {
    SplitFirst(t, '.', m);
    SplitNoSep(m, '.');
    assert t + "." + m == t + ['.'] + m;
  }

  /** Whatever resolves is such a name: two dot-free parts around one dot, with all checks passed. */
  lemma ResolveSound(hmap: Instances, fq: string, lookup: MethodLookup)
    requires ResolveHandler(hmap, fq, lookup).Success?
    ensures var parts := Split(fq, '.');
      |parts| == 2 && fq == parts[0] + "." + parts[1] && '.' !in parts[0] && '.' !in parts[1] &&
      parts[0] in hmap && lookup(hmap[parts[0]], parts[1]) == Some(RequestHandlerSig) &&
      ResolveHandler(hmap, fq, lookup).value == BoundMethod(hmap[parts[0]], parts[1])
  {
    var parts := Split(fq, '.');
    JoinSplit(fq, '.');
    SplitShape(fq, '.');
    assert Join(parts, '.') == parts[0] + ['.'] + parts[1];
  }

  /** A name with no dot, or with more than one, is rejected as invalid. */
  lemma ResolveNeedsOneDot(hmap: Instances, fq: string, lookup: MethodLookup)
    requires Count(fq, '.') != 1
    ensures ResolveHandler(hmap, fq, lookup) == Failure(InvalidName(fq))
  {
    SplitShape(fq, '.');
  }

  /** The interface middleware.Component. */
  const ComponentType := GoType("middleware.Component", InterfaceKind, "interface{Apply}", {"Apply"})

  predicate IsComponent(raw: AnyValue) {
    raw.Of? && AssignableTo(raw.value.typ, ComponentType)
  }

  /** A map read: the zero value (nil) for a missing name. */
  function Lookup(m: Instances, name: string): AnyValue {
    if name in m then m[name] else Nil
  }

  /** A route's handler wrapped by its middleware, `names[0]` outermost, skipping names that are not a Component. */
  function Chain(names: seq<string>, mw: Instances, perms: seq<string>, h: V1Handler): V1Handler
    decreases |names|
  {
    if names == [] then h
    else
      var inner := Chain(names[1..], mw, perms, h);
      if IsComponent(Lookup(mw, names[0])) then Applied(Lookup(mw, names[0]), perms, inner) else inner
  }

  /** The components among the named middleware, in route order. */
  function Components(names: seq<string>, mw: Instances): (r: seq<AnyValue>)
    ensures forall k :: 0 <= k < |r| ==> IsComponent(r[k])
    decreases |names|
  {
    if names == [] then []
    else (if IsComponent(Lookup(mw, names[0])) then [Lookup(mw, names[0])] else []) + Components(names[1..], mw)
  }

  /** The components a request passes, outermost first. */
  function Layers(h: V1Handler): seq<AnyValue> {
    match h
    case BoundMethod(_, _) => []
    case Applied(c, _, next) => [c] + Layers(next)
  }

  /** A request meets the route's components in the order the route lists them, then the method. */
  lemma {:induction false} ChainLayers(names: seq<string>, mw: Instances, perms: seq<string>, inst: AnyValue, m: string)
    ensures Layers(Chain(names, mw, perms, BoundMethod(inst, m))) == Components(names, mw)
    decreases |names|
  {
    if names != [] {
      ChainLayers(names[1..], mw, perms, inst, m);
    }
  }

  /** The middleware loop, from the last name to the first. */
  method WrapRoute(names: seq<string>, mw: Instances, perms: seq<string>, h: V1Handler) returns (fh: V1Handler)
    ensures fh == Chain(names, mw, perms, h)
  {
    fh := h;
    var i := |names|;
    while i > 0
      invariant 0 <= i <= |names|
      invariant fh == Chain(names[i..], mw, perms, h)
    {
      i := i - 1;
      assert names[i..][1..] == names[i + 1..];
      var raw := Lookup(mw, names[i]);
      if IsComponent(raw) {
        fh := Applied(raw, perms, fh);
      }
    }
  }

  // ---------------------------------------------------------------------
  // Instance tables

  /** Repository instances: the caller's services, then each RepoInit, in `order`, overwriting by name. */
  function RepoWired(repos: Instances, init: map<string, RepoInit>, order: seq<string>): (r: Instances)
    requires forall k :: 0 <= k < |order| ==> order[k] in init
    decreases |order|
  {
    if order == [] then repos
    else RepoWired(repos[order[0] := init[order[0]](repos)], init, order[1..])
  }

  /** RepoInit adds exactly its own names and leaves every other caller-supplied instance alone. */
  lemma {:induction false} RepoWiredShape(repos: Instances, init: map<string, RepoInit>, order: seq<string>)
    requires forall k :: 0 <= k < |order| ==> order[k] in init
    ensures forall n :: n in RepoWired(repos, init, order) <==> n in repos || n in order
    ensures forall n :: n in repos && n !in order ==> RepoWired(repos, init, order)[n] == repos[n]
    decreases |order|
  {
    if order != [] {
      RepoWiredShape(repos[order[0] := init[order[0]](repos)], init, order[1..]);
    }
  }

  /**
   * With each name visited once, every RepoInit's instance survives, and it
   * was built from the table as wired by the names visited before it.
   */
  lemma {:induction false} RepoWiredValue(repos: Instances, init: map<string, RepoInit>, order: seq<string>, k: nat)
    requires forall j :: 0 <= j < |order| ==> order[j] in init
    requires forall i, j :: 0 <= i < j < |order| ==> order[i] != order[j]
    requires k < |order|
    ensures order[k] in RepoWired(repos, init, order)
    ensures RepoWired(repos, init, order)[order[k]] == init[order[k]](RepoWired(repos, init, order[..k]))
    decreases k
  {
    var next := repos[order[0] := init[order[0]](repos)];
    if k == 0 {
      assert order[0] !in order[1..];
      RepoWiredShape(next, init, order[1..]);
    } else {
      assert order[..k][0] == order[0] && order[..k][1..] == order[1..][..k - 1];
      RepoWiredValue(next, init, order[1..], k - 1);
    }
  }

  /** Service instances: a caller-supplied service wins; ServiceInit fills only the missing names. */
  function SvcWired(services: Instances, init: map<string, ServiceInit>, repos: Instances): (r: Instances)
    ensures r.Keys == services.Keys + init.Keys
    ensures forall n :: n in services ==> r[n] == services[n]
    ensures forall n :: n in init && n !in services ==> r[n] == init[n](repos)
  {
    map n | n in services.Keys + init.Keys :: if n in services then services[n] else init[n](repos)
  }

  /** Every middleware init, run on the services and the session duration. */
  function MwInstances(init: map<string, MiddlewareInit>, svc: Instances, dur: int): (r: Instances)
    ensures r.Keys == init.Keys
  {
    map n | n in init :: init[n](svc, dur)
  }

  /** Every handler init, run on the services. */
  function HandlerInstances(init: map<string, HandlerInit>, svc: Instances): (r: Instances)
    ensures r.Keys == init.Keys
  {
    map n | n in init :: init[n](svc)
  }

  /** The four instance tables of New. */
  datatype Wiring = Wiring(repos: Instances, services: Instances, middleware: Instances, handlers: Instances)

  function Wire(reg: RegistryView, services: Instances, opt: Options, repoOrder: seq<string>): Wiring
    requires !opt.skipAutoWire ==> IsOrderOf(repoOrder, reg.repoInit.Keys)
  {
    var repos := if opt.skipAutoWire then services else RepoWired(services, reg.repoInit, repoOrder);
    var svc := if opt.skipAutoWire then services else SvcWired(services, reg.serviceInit, repos);
    Wiring(repos, svc, MwInstances(reg.middlewareInit, svc, opt.sessionDuration), HandlerInstances(reg.handlerInit, svc))
  }

  /** The registry's tables as values. */
  datatype RegistryView = RegistryView(
    serviceInit: map<string, ServiceInit>, repoInit: map<string, RepoInit>,
    handlerInit: map<string, HandlerInit>, middlewareInit: map<string, MiddlewareInit>)

  /** SkipAutoWire: services and repositories are exactly the caller's. */
  lemma SkipAutoWireKeepsServices(reg: RegistryView, services: Instances, opt: Options, repoOrder: seq<string>)
    requires opt.skipAutoWire
    ensures Wire(reg, services, opt, repoOrder).repos == services
    ensures Wire(reg, services, opt, repoOrder).services == services
  {
  }

  method WireRepos(services: Instances, init: map<string, RepoInit>, order: seq<string>) returns (repos: Instances)
    requires forall k :: 0 <= k < |order| ==> order[k] in init
    ensures repos == RepoWired(services, init, order)
  {
    repos := services;
    var k := 0;
    while k < |order|
      invariant 0 <= k <= |order|
      invariant RepoWired(repos, init, order[k..]) == RepoWired(services, init, order)
    {
      assert order[k..][1..] == order[k + 1..];
      repos := repos[order[k] := init[order[k]](repos)];
      k := k + 1;
    }
  }

  method WireServices(services: Instances, init: map<string, ServiceInit>, repos: Instances) returns (svc: Instances)
    ensures svc == SvcWired(services, init, repos)
  {
    svc := services;
    var rest := init.Keys;
    while rest != {}
      invariant rest <= init.Keys
      invariant svc.Keys == services.Keys + (init.Keys - rest)
      invariant forall n :: n in svc ==> svc[n] == if n in services then services[n] else init[n](repos)
      decreases rest
    {
      var n :| n in rest;
      if n !in svc {
        svc := svc[n := init[n](repos)];
      }
      rest := rest - {n};
    }
  }

  method InitMiddleware(init: map<string, MiddlewareInit>, svc: Instances, dur: int) returns (mw: Instances)
    ensures mw == MwInstances(init, svc, dur)
  {
    mw := map[];
    var rest := init.Keys;
    while rest != {}
      invariant rest <= init.Keys
      invariant mw.Keys == init.Keys - rest
      invariant forall n :: n in mw ==> mw[n] == init[n](svc, dur)
      decreases rest
    {
      var n :| n in rest;
      mw := mw[n := init[n](svc, dur)];
      rest := rest - {n};
    }
  }

  method InitHandlers(init: map<string, HandlerInit>, svc: Instances) returns (hs: Instances)
    ensures hs == HandlerInstances(init, svc)
  {
    hs := map[];
    var rest := init.Keys;
    while rest != {}
      invariant rest <= init.Keys
      invariant hs.Keys == init.Keys - rest
      invariant forall n :: n in hs ==> hs[n] == init[n](svc)
      decreases rest
    {
      var n :| n in rest;
      hs := hs[n := init[n](svc)];
      rest := rest - {n};
    }
  }

  // ---------------------------------------------------------------------
  // Route registration

  datatype Registration = Registration(verb: string, path: string, handler: V1Handler)

  /** What New does with one route. */
  datatype RouteStep = Skip | Report(err: ResolveError) | Install(registration: Registration)

  function Step(rt: Route, w: Wiring, env: string -> string, lookup: MethodLookup): (s: RouteStep)
    ensures s.Skip? <==> Disabled(env, ModuleKey(rt.handlerName)) || Disabled(env, HandlerKey(rt.handlerName))
    ensures s.Report? ==> ResolveHandler(w.handlers, rt.handlerName, lookup) == Failure(s.err)
    ensures s.Install? ==>
              s.registration.verb == rt.verb && s.registration.path == rt.path &&
              Layers(s.registration.handler) == Components(rt.middleware, w.middleware)
  {
    if Disabled(env, ModuleKey(rt.handlerName)) || Disabled(env, HandlerKey(rt.handlerName)) then Skip
    else match ResolveHandler(w.handlers, rt.handlerName, lookup)
      case Failure(e) => Report(e)
      case Success(h) =>
        ChainLayers(rt.middleware, w.middleware, rt.permissions, h.instance, h.methodName);
        Install(Registration(rt.verb, rt.path, Chain(rt.middleware, w.middleware, rt.permissions, h)))
  }

  /** The registrations New hands to the engine, in route order. */
  function Installed(routes: seq<Route>, w: Wiring, env: string -> string, lookup: MethodLookup): seq<Registration>
    decreases |routes|
  {
    if routes == [] then []
    else
      var last := Step(routes[|routes| - 1], w, env, lookup);
      Installed(routes[..|routes| - 1], w, env, lookup) + (if last.Install? then [last.registration] else [])
  }

  /** The resolve errors of the routes, in route order. */
  function Reported(routes: seq<Route>, w: Wiring, env: string -> string, lookup: MethodLookup): seq<ResolveError>
    decreases |routes|
  {
    if routes == [] then []
    else
      var last := Step(routes[|routes| - 1], w, env, lookup);
      Reported(routes[..|routes| - 1], w, env, lookup) + (if last.Report? then [last.err] else [])
  }

  /** The handler names of the routes New skips (and logs as skipped), in route order. */
  function Skipped(routes: seq<Route>, w: Wiring, env: string -> string, lookup: MethodLookup): seq<string>
    decreases |routes|
  {
    if routes == [] then []
    else
      var last := routes[|routes| - 1];
      Skipped(routes[..|routes| - 1], w, env, lookup) + (if Step(last, w, env, lookup).Skip? then [last.handlerName] else [])
  }

  /** Each route is installed, reported, or skipped: exactly one of these. */
  lemma {:induction false} EachRouteOnce(routes: seq<Route>, w: Wiring, env: string -> string, lookup: MethodLookup)
    ensures |Installed(routes, w, env, lookup)| + |Reported(routes, w, env, lookup)| + |Skipped(routes, w, env, lookup)| == |routes|
    decreases |routes|
  {
    if routes != [] {
      EachRouteOnce(routes[..|routes| - 1], w, env, lookup);
    }
  }

  /** With every route's module switched off, nothing is installed and nothing reported. */
  lemma {:induction false} ModulesOff(routes: seq<Route>, w: Wiring, env: string -> string, lookup: MethodLookup)
    requires forall k :: 0 <= k < |routes| ==> Disabled(env, ModuleKey(routes[k].handlerName))
    ensures Installed(routes, w, env, lookup) == [] && Reported(routes, w, env, lookup) == []
    decreases |routes|
  {
    if routes != [] {
      ModulesOff(routes[..|routes| - 1], w, env, lookup);
    }
  }

  /** One more route extends the installed and reported lists by that route's step. */
  lemma NextRoute(routes: seq<Route>, w: Wiring, env: string -> string, lookup: MethodLookup, i: nat)
    requires i < |routes|
    ensures var st := Step(routes[i], w, env, lookup);
      Installed(routes[..i + 1], w, env, lookup) ==
        Installed(routes[..i], w, env, lookup) + (if st.Install? then [st.registration] else []) &&
      Reported(routes[..i + 1], w, env, lookup) ==
        Reported(routes[..i], w, env, lookup) + (if st.Report? then [st.err] else [])
  {
    assert routes[..i + 1][..i] == routes[..i];
  }

  lemma Associative<T>(a: seq<T>, b: seq<T>, c: seq<T>)
    ensures a + b + c == a + (b + c)
  {
  }

  /** The HTTP engine, seen through the routes it was handed. */
  class Engine {
    var handled: seq<Registration>

    /** NewFastHTTP: an engine with no routes. */
    constructor ()
      ensures handled == []
    {
      handled := [];
    }

    method Handle(verb: string, path: string, h: V1Handler)
      modifies this
      ensures handled == old(handled) + [Registration(verb, path, h)]
    {
      handled := handled + [Registration(verb, path, h)];
    }
  }

  function View(reg: Registry): RegistryView
    reads reg
  {
    RegistryView(reg.serviceInit, reg.repoInit, reg.handlerInit, reg.middlewareInit)
  }

  /**
   * New: wire the instance tables, then hand every enabled route whose
   * handler resolves to the engine (a new one when `eng` is null); the
   * resolve errors are what OnError receives, when set. `env` stands for
   * os.Getenv and `repoOrder` for the map order of the repository inits.
   */
  method New(reg: Registry, services: Instances, eng: Engine?, opt: Options, env: string -> string,
             lookup: MethodLookup, repoOrder: seq<string>) returns (e: Engine, reported: seq<ResolveError>)
    requires !opt.skipAutoWire ==> IsOrderOf(repoOrder, reg.repoInit.Keys)
    modifies eng
    ensures eng != null ==> e == eng
    ensures eng == null ==> fresh(e)
    ensures var w := Wire(View(reg), services, opt, repoOrder);
      var routes := Concat(reg.routeProviders);
      e.handled == (if eng != null then old(eng.handled) else []) + Installed(routes, w, env, lookup) &&
      reported == if opt.onError then Reported(routes, w, env, lookup) else []
  {
    var o := WithDefaults(opt);
    var repos, svc := services, services;
    if !o.skipAutoWire {
      repos := WireRepos(services, reg.repoInit, repoOrder);
      svc := WireServices(services, reg.serviceInit, repos);
    }
    if eng == null {
      e := new Engine();
    } else {
      e := eng;
    }
    var mw := InitMiddleware(reg.middlewareInit, svc, o.sessionDuration);
    var hs := InitHandlers(reg.handlerInit, svc);
    var w := Wiring(repos, svc, mw, hs);
    assert w == Wire(View(reg), services, opt, repoOrder);
    var routes := Build(reg);
    reported := RegisterRoutes(e, routes, w, env, lookup, o.onError);
  }

  /** The route loop of New over a wired registry. */
  method RegisterRoutes(e: Engine, routes: seq<Route>, w: Wiring, env: string -> string, lookup: MethodLookup,
                        onError: bool) returns (reported: seq<ResolveError>)
    modifies e
    ensures e.handled == old(e.handled) + Installed(routes, w, env, lookup)
    ensures reported == if onError then Reported(routes, w, env, lookup) else []
  {
    reported := [];
    var i := 0;
    while i < |routes|
      invariant 0 <= i <= |routes|
      invariant e.handled == old(e.handled) + Installed(routes[..i], w, env, lookup)
      invariant onError ==> reported == Reported(routes[..i], w, env, lookup)
      invariant !onError ==> reported == []
    {
      NextRoute(routes, w, env, lookup, i);
      ghost var before := e.handled;
      var errs := RegisterRoute(e, routes[i], w, env, lookup, onError);
      Associative(old(e.handled), Installed(routes[..i], w, env, lookup), e.handled[|before|..]);
      reported := reported + errs;
      i := i + 1;
    }
    assert routes[..i] == routes;
  }

  /**
   * One iteration of the route loop: a switched-off route is skipped, a
   * handler that does not resolve is reported (to OnError, when set), and
   * any other route is wrapped in its middleware and handed to the engine.
   */
  method RegisterRoute(e: Engine, rt: Route, w: Wiring, env: string -> string, lookup: MethodLookup,
                       onError: bool) returns (reported: seq<ResolveError>)
    modifies e
    ensures var st := Step(rt, w, env, lookup);
      e.handled == old(e.handled) + (if st.Install? then [st.registration] else []) &&
      (onError ==> reported == if st.Report? then [st.err] else []) &&
      (!onError ==> reported == [])
  {
    reported := [];
    if Disabled(env, ModuleKey(rt.handlerName)) || Disabled(env, HandlerKey(rt.handlerName)) {
      return;
    }
    var r := ResolveHandler(w.handlers, rt.handlerName, lookup);
    if r.Failure? {
      if onError {
        reported := [r.error];
      }
      return;
    }
    var fh := WrapRoute(rt.middleware, w.middleware, rt.permissions, r.value);
    e.Handle(rt.verb, rt.path, fh);
  }
}
