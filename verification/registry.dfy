/**
 * The v1 registry: name-keyed tables of init functions for services,
 * repositories, handlers and middleware, and ordered lists of model and
 * route providers, filled by package-level Register* functions on one
 * global registry.
 */
module Registry {
  import opened Reflect

  /** Instances by name, as the init functions receive them. */
  type Instances = map<string, AnyValue>

  type ServiceInit = Instances -> AnyValue
  type RepoInit = Instances -> AnyValue
  type HandlerInit = Instances -> AnyValue
  /** A middleware init receives the services and the session duration in nanoseconds. */
  type MiddlewareInit = (Instances, int) -> AnyValue
  type ModelProvider = () -> seq<AnyValue>

  /** A route: method, path, "Type.Method" handler name, middleware names, permissions, metadata. */
  datatype Route = Route(
    verb: string, path: string, handlerName: string,
    middleware: seq<string>, permissions: seq<string>, meta: map<string, AnyValue>)

  type RouteProvider = () -> seq<Route>

  class Registry {
    var serviceInit: map<string, ServiceInit>
    var repoInit: map<string, RepoInit>
    var handlerInit: map<string, HandlerInit>
    var middlewareInit: map<string, MiddlewareInit>
    var modelProviders: seq<ModelProvider>
    var routeProviders: seq<RouteProvider>

    /** New: four empty tables and no providers. */
    constructor ()
      ensures serviceInit == map[] && repoInit == map[] && handlerInit == map[] && middlewareInit == map[]
      ensures modelProviders == [] && routeProviders == []
    {
      serviceInit := map[];
      repoInit := map[];
      handlerInit := map[];
      middlewareInit := map[];
      modelProviders := [];
      routeProviders := [];
    }
  }

  /** The registry package: its global registry, created once at package initialisation. */
  class Package {
    const global: Registry

    constructor ()
      ensures fresh(global)
      ensures global.serviceInit == map[] && global.repoInit == map[]
      ensures global.handlerInit == map[] && global.middlewareInit == map[]
      ensures global.modelProviders == [] && global.routeProviders == []
    {
      global := new Registry();
    }

    /** Global: the one registry, whatever happened since. */
    function Global(): (r: Registry)
      ensures r == global
    {
      global
    }

    /** RegisterService: `name` maps to `fn` in the service table; nothing else changes. */
    method RegisterService(name: string, fn: ServiceInit)
      modifies global
      ensures global.serviceInit == old(global.serviceInit)[name := fn]
      ensures global.repoInit == old(global.repoInit) && global.handlerInit == old(global.handlerInit)
      ensures global.middlewareInit == old(global.middlewareInit)
      ensures global.modelProviders == old(global.modelProviders) && global.routeProviders == old(global.routeProviders)
    {
      global.serviceInit := global.serviceInit[name := fn];
    }

    /** RegisterRepository: `name` maps to `fn` in the repository table; nothing else changes. */
    method RegisterRepository(name: string, fn: RepoInit)
      modifies global
      ensures global.repoInit == old(global.repoInit)[name := fn]
      ensures global.serviceInit == old(global.serviceInit) && global.handlerInit == old(global.handlerInit)
      ensures global.middlewareInit == old(global.middlewareInit)
      ensures global.modelProviders == old(global.modelProviders) && global.routeProviders == old(global.routeProviders)
    {
      global.repoInit := global.repoInit[name := fn];
    }

    /** RegisterHandler: `name` maps to `fn` in the handler table; nothing else changes. */
    method RegisterHandler(name: string, fn: HandlerInit)
      modifies global
      ensures global.handlerInit == old(global.handlerInit)[name := fn]
      ensures global.serviceInit == old(global.serviceInit) && global.repoInit == old(global.repoInit)
      ensures global.middlewareInit == old(global.middlewareInit)
      ensures global.modelProviders == old(global.modelProviders) && global.routeProviders == old(global.routeProviders)
    {
      global.handlerInit := global.handlerInit[name := fn];
    }

    /** RegisterMiddleware: `name` maps to `fn` in the middleware table; nothing else changes. */
    method RegisterMiddleware(name: string, fn: MiddlewareInit)
      modifies global
      ensures global.middlewareInit == old(global.middlewareInit)[name := fn]
      ensures global.serviceInit == old(global.serviceInit) && global.repoInit == old(global.repoInit)
      ensures global.handlerInit == old(global.handlerInit)
      ensures global.modelProviders == old(global.modelProviders) && global.routeProviders == old(global.routeProviders)
    {
      global.middlewareInit := global.middlewareInit[name := fn];
    }

    /** RegisterModels: one more model provider at the end; nothing else changes. */
    method RegisterModels(fn: ModelProvider)
      modifies global
      ensures global.modelProviders == old(global.modelProviders) + [fn]
      ensures global.serviceInit == old(global.serviceInit) && global.repoInit == old(global.repoInit)
      ensures global.handlerInit == old(global.handlerInit) && global.middlewareInit == old(global.middlewareInit)
      ensures global.routeProviders == old(global.routeProviders)
    {
      global.modelProviders := global.modelProviders + [fn];
    }

    /** RegisterRoutes: one more route provider at the end; nothing else changes. */
    method RegisterRoutes(fn: RouteProvider)
      modifies global
      ensures global.routeProviders == old(global.routeProviders) + [fn]
      ensures global.serviceInit == old(global.serviceInit) && global.repoInit == old(global.repoInit)
      ensures global.handlerInit == old(global.handlerInit) && global.middlewareInit == old(global.middlewareInit)
      ensures global.modelProviders == old(global.modelProviders)
    {
      global.routeProviders := global.routeProviders + [fn];
    }
  }
}
