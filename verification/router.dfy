/**
 * The multi-transport router: an HTTP transport, an action transport and a
 * logger. Dependencies go to both transports; `Register` goes to the HTTP
 * transport and swallows its panics; actions go to the action transport.
 */
module Facade {
  import opened Wrappers
  import opened Reflect
  import opened Handlers
  import Http = HttpTransport
  import Action = ActionTransport

  class Router {
    const http: Http.Transport
    const action: Action.Transport
    var logger: Logger

    /** New: fresh transports in their initial state and the Nop logger. */
    constructor ()
      ensures fresh(http) && fresh(http.mux) && fresh(http.container)
      ensures fresh(action) && fresh(action.container)
      ensures http.mux.routes == map[] && http.container.providers == map[] && http.prefix == ""
      ensures http.logger == Nop && http.middleware == [] && http.handlers == [] && http.srv == null
      ensures action.container.providers == map[] && action.handlers == map[] && action.keys == map[]
      ensures action.logger == Nop && action.bus == DefaultBus
      ensures logger == Nop
    {
      http := new Http.Transport();
      action := new Action.Transport();
      logger := Nop;
    }

    /** SetLogger: the router and both transports use `l`; nothing else changes. */
    method SetLogger(l: Logger)
      modifies this, http, action
      ensures logger == l && http.logger == l && action.logger == l
      ensures http.middleware == old(http.middleware) && http.handlers == old(http.handlers) && http.srv == old(http.srv)
      ensures action.handlers == old(action.handlers) && action.keys == old(action.keys) && action.bus == old(action.bus)
    {
      logger := l;
      http.logger := l;
      action.logger := l;
    }

    /** SetBus: only the action transport's bus changes. */
    method SetBus(b: Bus)
      modifies action
      ensures action.bus == b
      ensures action.logger == old(action.logger) && action.handlers == old(action.handlers) && action.keys == old(action.keys)
    {
      action.bus := b;
    }

    /** Provide: the dependency becomes retrievable under `name` from both transports' containers. */
    method Provide(name: string, instance: Value)
      modifies http.container, action.container
      ensures http.container.providers == old(http.container.providers)[name := instance]
      ensures action.container.providers == old(action.container.providers)[name := instance]
    {
      http.Provide(name, instance);
      action.Provide(name, instance);
    }

    /**
     * Register: registers in the HTTP transport only; a panic there is
     * recovered, leaving the prototype appended to the HTTP handlers and the
     * routes as they were.
     */
    method Register(prototype: Target)
      modifies http, http.mux
      ensures http.handlers == old(http.handlers) + [prototype]
      ensures http.middleware == old(http.middleware) && http.logger == old(http.logger) && http.srv == old(http.srv)
      ensures (prototype.StructPtr? && Http.PatternFor(http.prefix, prototype.inst.fields).Some? &&
               Http.PatternFor(http.prefix, prototype.inst.fields).value !in old(http.mux.routes)) ==>
        http.mux.routes == old(http.mux.routes)[Http.PatternFor(http.prefix, prototype.inst.fields).value :=
          Http.Wrap(http.middleware, Http.Endpoint(prototype.inst))]
      ensures !(prototype.StructPtr? && Http.PatternFor(http.prefix, prototype.inst.fields).Some? &&
                Http.PatternFor(http.prefix, prototype.inst.fields).value !in old(http.mux.routes)) ==>
        http.mux.routes == old(http.mux.routes)
    {
      var _ := http.Register(prototype);
    }

    /** RegisterAction: registers in the action transport only. */
    method RegisterAction(prototype: Target)
      requires prototype.StructPtr? && Action.ActionName(prototype.inst.fields) != ""
      modifies action
      ensures action.handlers == old(action.handlers)[Action.ActionName(prototype.inst.fields) := prototype.inst]
      ensures action.keys == if Action.KeyBinding(prototype.inst.fields) != ""
        then old(action.keys)[Action.KeyBinding(prototype.inst.fields) := Action.ActionName(prototype.inst.fields)]
        else old(action.keys)
      ensures action.logger == old(action.logger) && action.bus == old(action.bus)
    {
      action.Register(prototype);
    }

    /** Listen: the HTTP transport's Listen. */
    method Listen(addr: string, outcome: Http.ServeOutcome) returns (err: Option<Http.ListenError>)
      modifies http
      ensures http.srv == old(http.srv)
      ensures old(http.srv) != null ==> err == Some(Http.AlreadyListening)
      ensures old(http.srv) == null ==>
        err == if outcome.ServeFailed? then Some(Http.ListenFailed(outcome.message)) else None
    {
      err := http.Listen(addr, outcome);
    }

    /** Dispatch: exactly what the action transport's Dispatch returns. */
    method Dispatch(name: string, payload: Action.Payload, keyOrder: seq<string>, handle: HandleFn)
      returns (res: AnyValue, err: Option<Action.DispatchError>)
      requires payload.MapPayload? ==> IsOrderOf(keyOrder, payload.entries.Keys)
      ensures name !in action.handlers ==> res == Nil && err == Some(Action.ActionNotFound(name))
      ensures name in action.handlers ==>
        Action.Dispatched(res, err) ==
          Action.Run(action.handlers[name].typeName, action.handlers[name].fields, action.container.providers,
                     payload, keyOrder, handle)
    {
      res, err := action.Dispatch(name, payload, keyOrder, handle);
    }

    /** DispatchKey: exactly what the action transport's DispatchKey returns. */
    method DispatchKey(key: string, handle: HandleFn) returns (res: AnyValue, err: Option<Action.DispatchError>)
      ensures key !in action.keys ==> res == Nil && err == Some(Action.NoActionForKey(key))
      ensures key in action.keys && action.keys[key] !in action.handlers ==>
        res == Nil && err == Some(Action.ActionNotFound(action.keys[key]))
      ensures key in action.keys && action.keys[key] in action.handlers ==>
        Action.Dispatched(res, err) ==
          Action.Run(action.handlers[action.keys[key]].typeName, action.handlers[action.keys[key]].fields,
                     action.container.providers, Action.NoPayload, [], handle)
    {
      res, err := action.DispatchKey(key, handle);
    }
  }
}
