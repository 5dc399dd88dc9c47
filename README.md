# cycle: phase-ordered request handlers, modelled in Dafny

Package `cycle` lets an HTTP server register handlers against five
lifecycle phases: Request, PreAuth, Auth, PostAuth and Validate. A `Cycle`
keeps one append-only handler list per phase. The router installs two hooks:

- the middleware, for requests that match a route. It runs every
  registered handler, phase by phase in that fixed order and each list in
  registration order, and then the route's own handler.
- the not-found handler, for requests that match no route. It runs only
  the Request handlers and then the standard not-found response.

Handlers in this generation of the package return nothing. No handler
returns anything that can stop the run, and the writer and request are
passed along unchanged, so a run in which every handler returns normally
always ends with the route handler.

`cycle.dfy` (module `CycleModel`) holds the model:

- Handlers, response writers, requests and routers are opaque identifiers
  (`HandlerId`, `WriterId`, `RequestId`, `RouterId`).
- Running a hook produces a trace of `Event`s:
  - `Call(phase, handler, w, r)` for each phase handler;
  - `Terminal(handler, w, r)` for the route handler;
  - `NotFound(w, r)` for the not-found response.
- The class `Cycle` has the five lists as `seq` fields. It has the five
  registration methods and the two hooks, `Middleware` and
  `NotFoundHandler`. Each hook is a method that loops over the lists.
- `Registry` is the value of the five lists. `MiddlewareTrace` and
  `NotFoundTrace` are the functions the two hooks are proved against. The
  lemmas state ordering, completeness, exactly-once and same-argument
  properties about them.

Each phase's loop reads its list when that loop starts, so handlers
registered after `New` still run: the Go closures capture the `Cycle`
pointer, not copies of the lists.

There is a second, later design of this package. In it, handlers return an
error and a replacement request. That design stops on the first error and
passes each handler's request on to the next. The code modelled here does
neither, and the model follows the code: there is no error path, no
short-circuit, and one writer and one request for the whole run.

## Model

| member | source | states |
|---|---|---|
| `CycleModel.Cycle.constructor` | cycle.go:9-10 | A new `Cycle` keeps the router it was given and has all five handler lists empty |
| `CycleModel.EmptyHasNoHandlers` | cycle.go:10 | The initial registry is exactly the one whose every phase list is empty |
| `CycleModel.Registry.Add` | cycle.go:62-80 | Registering for phase p appends the handler at the end of p's list; every other phase's list is unchanged |
| `CycleModel.Cycle.OnRequest` | cycle.go:62-64 | `onRequest` grows by the new handler at its end; the other four lists are unchanged |
| `CycleModel.Cycle.OnPreAuth` | cycle.go:66-68 | `onPreAuth` grows by the new handler at its end; the other four lists are unchanged |
| `CycleModel.Cycle.OnAuth` | cycle.go:70-72 | `onAuth` grows by the new handler at its end; the other four lists are unchanged |
| `CycleModel.Cycle.OnPostAuth` | cycle.go:74-76 | `onPostAuth` grows by the new handler at its end; the other four lists are unchanged |
| `CycleModel.Cycle.OnValidate` | cycle.go:78-80 | `onValidate` grows by the new handler at its end; the other four lists are unchanged |
| `CycleModel.PhaseCalls` | cycle.go:28-30 | Running one phase gives one call per handler of its list: the i-th call is the i-th handler, with the run's writer and request |
| `CycleModel.RunPhase` | cycle.go:28-30 | The `for … range` loop over one phase's list produces exactly the calls of `PhaseCalls` |
| `CycleModel.Cycle.Middleware` | cycle.go:26-50 | A matched request's run, with its five loops and then the route handler, is exactly `MiddlewareTrace` of the current lists |
| `CycleModel.Cycle.NotFoundHandler` | cycle.go:52-60 | An unmatched request's run, with its Request loop and then not-found, is exactly `NotFoundTrace` of the current lists |
| `CycleModel.MiddlewareRunsAllThenTerminal` | cycle.go:28-48 | A matched run calls exactly onRequest ++ onPreAuth ++ onAuth ++ onPostAuth ++ onValidate, in that order. Then it serves the route handler once, as the last step; every earlier step is a phase handler |
| `CycleModel.MiddlewareRunsPhaseInOrder` | cycle.go:28-46 | For each phase, the handlers of that phase called in a matched run are exactly its list, in registration order |
| `CycleModel.MiddlewarePhaseOrdered` | cycle.go:28-46 | In a matched run no handler of a later phase is called before a handler of an earlier phase |
| `CycleModel.MiddlewareSameArguments` | cycle.go:27-48 | Every step of a matched run, including the route handler, gets the run's own writer and request |
| `CycleModel.MiddlewareWithoutHandlers` | cycle.go:26-49 | A matched run is just the route handler's call if and only if no handler is registered |
| `CycleModel.RegistrationExtendsRuns` | cycle.go:62-80 | After registering h for phase p, later matched runs call h as p's last handler and call every other phase as before. An unmatched run is unchanged if and only if p is not Request |
| `CycleModel.NotFoundRunsOnlyRequestPhase` | cycle.go:53-58 | An unmatched run calls exactly onRequest in order and no handler of another phase. It never serves a route handler and ends with the not-found response; every step gets the run's writer and request |
| `CycleModel.RequestHandlerRunsOnce` | cycle_test.go:18-33 | On a new `Cycle`, one registered Request handler runs exactly once for a matched request, and the route handler runs after it |

## Left out

- Router wiring in `New` (cycle.go:11-12). `r.Use(c.middleware)` and the
  `r.NotFoundHandler` assignment act on the external mux router. The model
  keeps only the router's identity, and the hooks are called directly.
- Route matching: the choice between the middleware and the not-found
  handler is made by the mux router. That router is not part of this model.
- HTTP effects. What handlers write to the response, the status codes, and
  the body written by `http.NotFoundHandler()` are net/http behaviour. A
  handler's effect is recorded only as an event in the trace.
- The closure that `middleware` returns wraps the route handler `h`. The
  model passes `h` straight to `Middleware` along with the writer and the
  request.
- Panicking handlers: every handler is taken to return normally. In Go a
  handler that panics unwinds out of the hook, so the remaining handlers
  and the route handler (cycle.go:48) never run for that request; such
  runs are not modelled.
- Registration during a run: handlers are taken not to call the `On*`
  methods while a request is being served. In Go a Request handler that
  registers an Auth handler would see it called by the Auth loop of the
  same request, because each loop reads its list when it starts
  (cycle.go:28, 32, 36, 40, 44); the model reads all five lists as they
  stand when the request arrives.
- Concurrency: concurrent requests and concurrent registration are not
  modelled. Each run is one sequential trace.
- Error-returning handlers, the short-circuit on error, the error-handling
  collaborator, and the replacement of the request between handlers are
  not modelled. The modelled code has none of them.
- `cycle_test.go` calls `New()` with no argument and the exported
  `c.Middleware`, which do not match `cycle.go`. Only its
  once-per-request assertion is modelled, by `RequestHandlerRunsOnce`.
