/**
  The two interceptors of the loader and the world they act on.

  `dt_lua_newstate` replaces the runtime's `lua_newstate`: it calls the
  original constructor, and for a state that was actually created it
  registers the state and binds the loader's native extensions into its
  globals. `dt_Application_update` replaces the host's update routine and
  only passes through. Both reach the original by opening a scoped removal
  of their own detour around the call.

  The originals are not modelled: each is a function parameter that sees the
  history of original calls so far (so two calls with equal arguments may
  answer differently) and the arguments the interceptor forwards. The host's
  update routine is C++ and may throw; the interceptor lets the exception
  through, and the scoped removal still restores the detour on the way out.

  A call into an entry point whose detour is removed, as before installation,
  reaches the original directly and bypasses the interceptor.
 */
module Hook {
  import opened Lua
  import opened Registry
  import opened Detour

  /** One call that reached an original entry point, with its detour's state at that moment. */
  datatype OriginalCall =
    | NewStateCall(allocator: Allocator, data: Ptr, detour: HookState)
    | UpdateCall(self: Ptr, detour: HookState)

  /** Everything the interceptors read or change. */
  datatype World = World(
    activeStates: ActiveStates,
    globals: map<Ptr, Globals>,
    newStateDetour: HookState,
    gameUpdateDetour: HookState,
    calls: seq<OriginalCall>)

  /** What the original `lua_newstate` produced: a state (`NULL` on failure) and its initial globals. */
  datatype Construction = Construction(state: Ptr, globals: Globals)

  /** How a call ended: with a pointer-sized return value, or with an exception propagating out. */
  datatype Outcome = Returned(value: Ptr) | Threw(exception: nat)

  type OriginalNewState = (seq<OriginalCall>, Allocator, Ptr) -> Construction

  type OriginalUpdate = (seq<OriginalCall>, Ptr) -> Outcome

  /** A call's outcome and the world it leaves behind. */
  datatype Intercepted = Intercepted(world: World, result: Outcome)

  /** The world after a global-table update that touches only `state`. */
  ghost predicate OnlyStateChanged(before: map<Ptr, Globals>, after: map<Ptr, Globals>, state: Ptr)
  {
    && state in after
    && forall t :: t != state ==> (t in after <==> t in before) && (t in before ==> after[t] == before[t])
  }

  /**
    `dt_Application_update`: pass through to the original update with the
    detour out of the way. A return value and an exception alike come back
    unchanged, and on both exits the guard restores the detour.
   */
  function ApplicationUpdate(w: World, self: Ptr, original: OriginalUpdate): (r: Intercepted)
    ensures r.result == original(w.calls, self)
    ensures r.world.calls == w.calls + [UpdateCall(self, Removed)]
    ensures r.world.gameUpdateDetour == w.gameUpdateDetour
    ensures r.world.newStateDetour == w.newStateDetour
    ensures r.world.activeStates == w.activeStates
    ensures r.world.globals == w.globals
  {
    var scope := Open(w.gameUpdateDetour);
    var outcome := original(w.calls, self);
    var calls := w.calls + [UpdateCall(self, scope.during)];
    Intercepted(w.(gameUpdateDetour := Close(scope.guard, scope.during), calls := calls), outcome)
  }

  /**
    `dt_lua_newstate`: construct through the original; on `NULL` hand `NULL`
    back with nothing registered or bound; otherwise register the state, bind
    the extensions into its globals and return it.
   */
  function LuaNewState(w: World, allocator: Allocator, data: Ptr, original: OriginalNewState): (r: Intercepted)
    ensures var c := original(w.calls, allocator, data);
            && r.result == Returned(c.state)
            && r.world.calls == w.calls + [NewStateCall(allocator, data, Removed)]
            && r.world.newStateDetour == w.newStateDetour
            && r.world.gameUpdateDetour == w.gameUpdateDetour
            && (c.state == NULL ==> r.world.activeStates == w.activeStates && r.world.globals == w.globals)
            && (c.state != NULL ==>
                  && r.world.activeStates == w.activeStates + [c.state]
                  && OnlyStateChanged(w.globals, r.world.globals, c.state))
  {
    var scope := Open(w.newStateDetour);
    var c := original(w.calls, allocator, data);
    var calls := w.calls + [NewStateCall(allocator, data, scope.during)];
    var restored := Close(scope.guard, scope.during);
    if c.state == NULL then
      Intercepted(w.(newStateDetour := restored, calls := calls), Returned(c.state))
    else
      var states := AddActiveState(w.activeStates, c.state);
      var globals := w.globals[c.state := InstallExtensions(c.globals, Extensions)];
      Intercepted(World(states, globals, restored, w.gameUpdateDetour, calls), Returned(c.state))
  }

  /**
    The globals of a state the interceptor created: the four extensions are
    bound to their natives, `unzip` and every other name keep the value the
    original constructor gave them, and no other name appears.
   */
  lemma NewStateGlobals(w: World, allocator: Allocator, data: Ptr, original: OriginalNewState)
    requires original(w.calls, allocator, data).state != NULL
    ensures var c := original(w.calls, allocator, data);
            var g := LuaNewState(w, allocator, data, original).world.globals[c.state];
            && g.Keys == c.globals.Keys + ExtensionNames
            && g["pcall"] == CClosure(Pcall)
            && g["dofile"] == CClosure(LoadFile)
            && g["dohttpreq"] == CClosure(DoHttpReq)
            && g["log"] == CClosure(Log)
            && ("unzip" in g <==> "unzip" in c.globals)
            && ("unzip" in c.globals ==> g["unzip"] == c.globals["unzip"])
            && (forall k :: k in c.globals && k !in ExtensionNames ==> g[k] == c.globals[k])
  {
    ExtensionTable(original(w.calls, allocator, data).globals);
  }

  /** `blt_init_hooks`, second half: install both detours. Symbol resolution is not modelled. */
  function InitHooks(w: World): (r: World)
    ensures r.newStateDetour == Installed && r.gameUpdateDetour == Installed
    ensures r.activeStates == w.activeStates && r.globals == w.globals && r.calls == w.calls
  {
    w.(newStateDetour := Installed, gameUpdateDetour := Installed)
  }

  /** A call by the host or a script into `lua_newstate` or `Application::update`. */
  datatype Request = NewStateRequest(allocator: Allocator, data: Ptr) | UpdateRequest(self: Ptr)

  /** Whether the entry point the request calls is currently patched. */
  predicate Intercepts(w: World, req: Request)
  {
    match req
    case NewStateRequest(_, _) => w.newStateDetour == Installed
    case UpdateRequest(_) => w.gameUpdateDetour == Installed
  }

  /**
    The unpatched entry point: the original runs and nothing else happens. A
    state it creates keeps exactly the global table the constructor gave it.
   */
  function CallOriginal(w: World, req: Request, newState: OriginalNewState, update: OriginalUpdate): Intercepted
  {
    match req
    case NewStateRequest(a, d) =>
      var c := newState(w.calls, a, d);
      var globals := if c.state == NULL then w.globals else w.globals[c.state := c.globals];
      Intercepted(w.(globals := globals, calls := w.calls + [NewStateCall(a, d, w.newStateDetour)]), Returned(c.state))
    case UpdateRequest(s) =>
      Intercepted(w.(calls := w.calls + [UpdateCall(s, w.gameUpdateDetour)]), update(w.calls, s))
  }

  /** A call lands in the interceptor when its detour is installed, and in the original otherwise. */
  function Step(w: World, req: Request, newState: OriginalNewState, update: OriginalUpdate): Intercepted
  {
    if !Intercepts(w, req) then CallOriginal(w, req, newState, update)
    else
      match req
      case NewStateRequest(a, d) => LuaNewState(w, a, d, newState)
      case UpdateRequest(s) => ApplicationUpdate(w, s, update)
  }

  /** The final world and every call's outcome, in order. */
  datatype Trace = Trace(world: World, results: seq<Outcome>)

  function Run(w: World, reqs: seq<Request>, newState: OriginalNewState, update: OriginalUpdate): Trace
    decreases |reqs|
  {
    if |reqs| == 0 then Trace(w, [])
    else
      var s := Step(w, reqs[0], newState, update);
      var t := Run(s.world, reqs[1..], newState, update);
      Trace(t.world, [s.result] + t.results)
  }

  /** A run is its first call followed by the run of the remaining requests. */
  lemma RunCons(w: World, reqs: seq<Request>, newState: OriginalNewState, update: OriginalUpdate)
    requires |reqs| > 0
    ensures var s := Step(w, reqs[0], newState, update);
            var t := Run(s.world, reqs[1..], newState, update);
            Run(w, reqs, newState, update) == Trace(t.world, [s.result] + t.results)
  {
  }

  /** Both detours are in place, as after `InitHooks`. */
  predicate HooksInstalled(w: World)
  {
    w.newStateDetour == Installed && w.gameUpdateDetour == Installed
  }

  /** Neither detour is in place, as before `InitHooks`. */
  predicate HooksRemoved(w: World)
  {
    w.newStateDetour == Removed && w.gameUpdateDetour == Removed
  }

  /** The call a request must reach its original with: same arguments, detour removed. */
  function Forwarded(req: Request): OriginalCall
  {
    match req
    case NewStateRequest(a, d) => NewStateCall(a, d, Removed)
    case UpdateRequest(s) => UpdateCall(s, Removed)
  }

  function ForwardedAll(reqs: seq<Request>): seq<OriginalCall>
    decreases |reqs|
  {
    if |reqs| == 0 then [] else [Forwarded(reqs[0])] + ForwardedAll(reqs[1..])
  }

  /** What the original called for `req` answers in world `w`. */
  function OriginalOutcome(w: World, req: Request, newState: OriginalNewState, update: OriginalUpdate): Outcome
  {
    match req
    case NewStateRequest(a, d) => Returned(newState(w.calls, a, d).state)
    case UpdateRequest(s) => update(w.calls, s)
  }

  /** The state a call created, if any: a construction result that is not `NULL`. */
  function Created(req: Request, result: Outcome): seq<Ptr>
  {
    if req.NewStateRequest? && result.Returned? && result.value != NULL then [result.value] else []
  }

  /** The states a run created, request by request. */
  function CreatedAll(reqs: seq<Request>, results: seq<Outcome>): seq<Ptr>
    decreases |reqs|
  {
    if |reqs| == 0 || |results| == 0 then []
    else Created(reqs[0], results[0]) + CreatedAll(reqs[1..], results[1..])
  }

  /**
    One call, patched or not: its original is reached once, with the request's
    own arguments and its detour removed, and the call ends with the
    original's outcome; the detours end as they started; the registry gains
    a non-`NULL` construction result when the call was intercepted, and
    nothing otherwise.
   */
  lemma StepForwardsOnce(w: World, req: Request, newState: OriginalNewState, update: OriginalUpdate)
    ensures var s := Step(w, req, newState, update);
            && s.world.calls == w.calls + [Forwarded(req)]
            && s.result == OriginalOutcome(w, req, newState, update)
            && s.world.newStateDetour == w.newStateDetour
            && s.world.gameUpdateDetour == w.gameUpdateDetour
            && s.world.activeStates == w.activeStates + (if Intercepts(w, req) then Created(req, s.result) else [])
  {
    var s := Step(w, req, newState, update);
    if !Intercepts(w, req) {
      assert w.activeStates + [] == w.activeStates;
    }
  }

  /**
    A call into an entry point whose detour is removed goes to the original
    directly: it answers with the original's outcome, the call is recorded,
    nothing is registered, and a state it creates gets exactly the
    constructor's global table, with no extension bound.
   */
  lemma DirectCallBypasses(w: World, req: Request, newState: OriginalNewState, update: OriginalUpdate)
    requires !Intercepts(w, req)
    ensures var s := Step(w, req, newState, update);
            && s.result == OriginalOutcome(w, req, newState, update)
            && s.world.calls == w.calls + [Forwarded(req)]
            && s.world.activeStates == w.activeStates
            && s.world.newStateDetour == w.newStateDetour
            && s.world.gameUpdateDetour == w.gameUpdateDetour
            && (Created(req, s.result) == [] ==> s.world.globals == w.globals)
            && (forall p :: p in Created(req, s.result) ==>
                  && OnlyStateChanged(w.globals, s.world.globals, p)
                  && s.world.globals[p] == newState(w.calls, req.allocator, req.data).globals)
  {
  }

  /**
    Over any run of calls: the detours end as they started and the originals
    saw exactly one forwarded call per request, in order.
   */
  lemma {:induction false} RunForwardsEach(w: World, reqs: seq<Request>, newState: OriginalNewState, update: OriginalUpdate)
    ensures var t := Run(w, reqs, newState, update);
            && t.world.newStateDetour == w.newStateDetour
            && t.world.gameUpdateDetour == w.gameUpdateDetour
            && |t.results| == |reqs|
            && t.world.calls == w.calls + ForwardedAll(reqs)
    decreases |reqs|
  {
    if |reqs| == 0 {
      assert w.calls + [] == w.calls;
    } else {
      var s := Step(w, reqs[0], newState, update);
      StepForwardsOnce(w, reqs[0], newState, update);
      RunForwardsEach(s.world, reqs[1..], newState, update);
      assert (w.calls + [Forwarded(reqs[0])]) + ForwardedAll(reqs[1..])
          == w.calls + ([Forwarded(reqs[0])] + ForwardedAll(reqs[1..]));
    }
  }

  /**
    Over any run of calls made with both detours installed, the registry
    grows by the non-`NULL` construction results, in the order they were
    returned, and by nothing else.
   */
  lemma {:induction false} RunRegistersCreated(w: World, reqs: seq<Request>, newState: OriginalNewState, update: OriginalUpdate)
    requires HooksInstalled(w)
    ensures var t := Run(w, reqs, newState, update);
            t.world.activeStates == w.activeStates + CreatedAll(reqs, t.results)
    decreases |reqs|
  {
    if |reqs| == 0 {
      assert w.activeStates + [] == w.activeStates;
    } else {
      var s := Step(w, reqs[0], newState, update);
      var t := Run(s.world, reqs[1..], newState, update);
      StepForwardsOnce(w, reqs[0], newState, update);
      RunRegistersCreated(s.world, reqs[1..], newState, update);
      RunCons(w, reqs, newState, update);
      RegistersCons(w.activeStates, s.world.activeStates, t.world.activeStates, reqs, s.result, t.results);
    }
  }

  /**
    The inductive step of `RunRegistersCreated`: when the first call adds its
    created state and the rest of the run adds theirs, the whole run adds
    both, first call's first.
   */
  lemma RegistersCons(before: ActiveStates, middle: ActiveStates, after: ActiveStates,
                       reqs: seq<Request>, result: Outcome, results: seq<Outcome>)
    requires |reqs| > 0
    requires middle == before + Created(reqs[0], result)
    requires after == middle + CreatedAll(reqs[1..], results)
    ensures after == before + CreatedAll(reqs, [result] + results)
  {
    CreatedAllCons(reqs, result, results);
    AppendAssociates(before, Created(reqs[0], result), CreatedAll(reqs[1..], results));
  }

  lemma AppendAssociates<T>(a: seq<T>, b: seq<T>, c: seq<T>)
    ensures (a + b) + c == a + (b + c)
  {
  }

  /** The states a run created are the first call's followed by the rest's. */
  lemma CreatedAllCons(reqs: seq<Request>, result: Outcome, results: seq<Outcome>)
    requires |reqs| > 0
    ensures CreatedAll(reqs, [result] + results) == Created(reqs[0], result) + CreatedAll(reqs[1..], results)
  {
    var rs := [result] + results;
    assert rs[0] == result && rs[1..] == results;
  }

  /**
    Over any run of calls made before the detours are installed, every call
    reaches its original directly: the registry stays as it was, the detours
    stay removed, and only the states the run created get a new global table.
   */
  lemma {:induction false} RunUnhookedBindsNothing(w: World, reqs: seq<Request>, newState: OriginalNewState, update: OriginalUpdate)
    requires HooksRemoved(w)
    ensures var t := Run(w, reqs, newState, update);
            && t.world.activeStates == w.activeStates
            && HooksRemoved(t.world)
            && (forall p :: p in CreatedAll(reqs, t.results) ==> p in t.world.globals)
            && (forall p :: p !in CreatedAll(reqs, t.results) ==>
                  && (p in t.world.globals <==> p in w.globals)
                  && (p in w.globals ==> t.world.globals[p] == w.globals[p]))
    decreases |reqs|
  {
    if |reqs| > 0 {
      var s := Step(w, reqs[0], newState, update);
      var t := Run(s.world, reqs[1..], newState, update);
      var results := [s.result] + t.results;
      var head := Created(reqs[0], s.result);
      var tail := CreatedAll(reqs[1..], t.results);
      RunCons(w, reqs, newState, update);
      CreatedAllCons(reqs, s.result, t.results);
      DirectCallBypasses(w, reqs[0], newState, update);
      RunUnhookedBindsNothing(s.world, reqs[1..], newState, update);
      forall p | p in head + tail
        ensures p in t.world.globals
      {
        if p !in tail {
          assert p in head;
        }
      }
    }
  }

  /** After `InitHooks`, any run leaves both detours installed. */
  lemma InitThenRun(w: World, reqs: seq<Request>, newState: OriginalNewState, update: OriginalUpdate)
    ensures HooksInstalled(Run(InitHooks(w), reqs, newState, update).world)
  {
    RunForwardsEach(InitHooks(w), reqs, newState, update);
  }
}
