# blt4l hooks: a Dafny model

blt4l is a Linux loader. It attaches to a game that embeds Lua and extends
each Lua state the game creates. This project models the bookkeeping and
control flow of its hook layer, `src/hook.cc`:

- **Active-state registry.** `activeStates` is an ordered `std::list` of
  `lua_state*`. It has three operations: append (`add_active_state`),
  remove every copy (`remove_active_state`) and a linear membership scan
  (`check_active_state`). Module `Registry`, file `registry.dfy`.
- **Construction interceptor.** `dt_lua_newstate` calls the original
  `lua_newstate`. A `NULL` result is handed straight back. Otherwise the new
  state is registered, the natives `pcall`, `dofile`, `dohttpreq` and `log`
  are bound into its globals, and the state is returned. Module `Hook`, file
  `hook.dfy`. The global table and the extension list are in module `Lua`,
  file `lua.dfy`.
- **Update interceptor.** `dt_Application_update` passes the call through to
  the original `Application::update` and returns its result unchanged.
  Module `Hook`.
- **Scoped removal.** Each interceptor opens a scoped removal of its own
  detour, so the call to the original does not land back in the
  interceptor. Module `Detour`, file `detour.dfy`. It has two states,
  `Installed` and `Removed`.

The world the interceptors act on is an immutable record. It holds the
registry, one global table per state, the two detour states, and a log of
the calls that reached an original entry point. Each log entry records its
arguments and the state of its detour at that moment. The originals are
function parameters. They see the log so far, so two calls with equal
arguments may answer differently. The original `lua_newstate` yields the
new state and its initial global table.

Pointers are unbounded naturals, and `NULL` is 0. The code does no
arithmetic on pointers, so their width does not matter here.

A call reaches an interceptor only while the call's detour is installed.
A call made while the detour is removed, as before installation, goes
straight to the original. The world then records the call, and a state the
original creates gets exactly the global table the constructor gave it.
`Hook.Step` decides on the detour's state, so nothing is registered and no
extension is bound for such a call (`Hook.DirectCallBypasses`).

The host's update routine is C++ and may throw. Its original is therefore
modelled as returning either a value or an exception. The interceptor hands
back either one unchanged, and the guard restores the detour on both exits.

The patching library (SubHook) is not part of this model. Its scoped-remove
guard is modelled as follows: it records whether its removal actually took
the detour out, and on exit it reinstalls only in that case.

Two modelling choices follow the code:

- The registry is an ordered `std::list` that keeps duplicates
  (src/hook.cc:49, 63). It is modelled as a sequence, not a set.
- Nothing in `src/hook.cc` calls `remove_active_state`, and the `lua_close`
  detour `luaCloseDetour` is declared but never installed (src/hook.cc:54,
  190-196). So in the modelled runs the registry only grows
  (`Hook.RunRegistersCreated`). Removal is modelled as an operation in its
  own right (`Registry.ReplayMembership`).

## Model

| member | source | states |
|---|---|---|
| Registry.AddActiveState | src/hook.cc:60-64 | appends at the back: the old entries keep their places, the new handle is last, and its count grows by one even if it was already present |
| Registry.RemoveActiveState | src/hook.cc:66-70 | no copy of the handle is left; every other handle keeps its multiplicity and presence; removing an absent handle changes nothing |
| Registry.CheckActiveState | src/hook.cc:72-90 | the front-to-back scan answers true exactly when the handle occurs somewhere in the list |
| Registry.RemoveKeepsOrder | src/hook.cc:66-70 | removal distributes over concatenation, so the surviving handles keep their relative order |
| Registry.RemoveSingleton | src/hook.cc:66-70 | a one-element list loses its element exactly when it is the handle removed |
| Registry.RemoveAfterAdd | src/hook.cc:60-70 | removing a handle just appended also removes its earlier copies and leaves the same list as removing it straight away |
| Registry.RemoveUndoesRepeatedAdds | src/hook.cc:60-70 | after the same handle is appended any number of times, one removal gives the same list as removing it from the original list |
| Registry.AddThenRemove | src/hook.cc:60-90 | right after an add the handle is a member; right after a remove it is not |
| Registry.ReplayMembership | src/hook.cc:49-90 | after any sequence of adds and removes, a handle is a member exactly when the last operation naming it was an add, or, if none names it, when it was a member at the start |
| Lua.InstallExtensionsBindsNames | src/hook.cc:113-115 | binding a list of natives leaves the global names of the table plus the bound names, and no others |
| Lua.InstallExtensionsBindsEach | src/hook.cc:113-115 | when no name is bound twice, each bound name ends up holding a closure of exactly its own native |
| Lua.InstallExtensionsKeepsOthers | src/hook.cc:113-115 | a name no binding mentions keeps its value, and stays absent if it was absent |
| Lua.ExtensionTable | src/hook.cc:133-138 | the loader's table binds pcall, dofile, dohttpreq and log to the protected-call, file-loading, HTTP-request and log natives; unzip and every other name keep their earlier value |
| Detour.Open | src/hook.cc:99 | opening a scoped removal leaves the detour removed, and the guard records whether the detour had been installed |
| Detour.Close | src/hook.cc:99-102 | closing the guard reinstalls the detour if the guard removed it, and otherwise leaves it as it is |
| Detour.BracketRestores | src/hook.cc:96-102 | for either starting state, the detour is removed inside the bracket and is back in its starting state after it |
| Hook.ApplicationUpdate | src/hook.cc:96-102 | hands back the original update's outcome for the same self pointer unchanged, whether a return value or a thrown exception; the original is called once, with that pointer, while the update detour is removed; on both exits the detour ends as it started; registry, globals and the other detour are untouched |
| Hook.LuaNewState | src/hook.cc:107-143 | calls the original constructor once with the same allocator and user data while the construction detour is removed, and returns exactly its result; on NULL nothing is registered or bound; otherwise the registry gains the new state at the back and only that state's global table changes; the detours end as they started |
| Hook.NewStateGlobals | src/hook.cc:113-138 | a created state's globals are its initial globals plus exactly pcall, dofile, dohttpreq and log, bound to their natives; unzip and every other name keep the value the constructor gave them |
| Hook.InitHooks | src/hook.cc:186-196 | initialisation leaves both detours installed and changes nothing else |
| Hook.StepForwardsOnce | src/hook.cc:96-143 | any call, patched or not, reaches its original exactly once, with its own arguments and its detour removed, ends with the original's outcome, and leaves the detours as it found them; the registry gains the result only for an intercepted construction that did not return NULL |
| Hook.DirectCallBypasses | src/hook.cc:99-101 | a call whose detour is removed reaches the original directly: it ends with the original's outcome, the call is recorded, nothing is registered, and a state it creates gets exactly the constructor's global table, with no extension bound and every other table untouched |
| Hook.RunForwardsEach | src/hook.cc:96-143 | over any run of calls the detours end as they started, and the originals see exactly one forwarded call per request, in request order |
| Hook.RunRegistersCreated | src/hook.cc:112-122 | over any run of calls started with both detours installed, the registry grows by the non-NULL construction results, in the order they were returned, and by nothing else |
| Hook.RunUnhookedBindsNothing | src/hook.cc:186-196 | over any run of calls made before the detours are installed, the registry stays as it was, the detours stay removed, the states the run created have a table, and every other state's table is as it was |
| Hook.InitThenRun | src/hook.cc:186-196 | after initialisation, both detours are still installed after any run of calls |

## Left out

- Symbol resolution in `blt_init_hooks` (`dlsym` for each Lua entry point and for the mangled `Application::update`, src/hook.cc:146-183). This is dynamic-loader I/O. `Hook.InitHooks` models only the two detour installations and assumes every slot resolved.
- Binary patching by SubHook (src/hook.cc:51-54, 192-195). Only the Installed/Removed state of each detour is modelled.
- Hook.InitHooks: assumes both `Install` calls succeed. The code ignores their results, so a failed installation would go unnoticed there; the model does not represent that failure.
- The Lua C API stack. The pair `lua_pushcclosure` + `lua_setfield(LUAGlobalsIndex)` is modelled by its net effect on the global table (`Lua.MapFn`). The `lua_gettop` read and the `cerr` diagnostic (src/hook.cc:124-126) have no effect on behaviour and are omitted.
- The bodies of the `lapi` natives (`pcall`, `loadfile`, `dohttpreq`, `log`, `unzip`). They live in other files and are modelled as distinct function identities.
- Whatever the original `lua_newstate` and `Application::update` do besides producing their outcomes. The original update may itself create Lua states while the update detour is removed; those calls would go through the construction interceptor. This nesting is not modelled.
- A nested call into the same entry point from inside its original, while that interceptor's guard is open. The originals are modelled as functions of the call log and cannot call back into an entry point.
- Hook.LuaNewState: the original `lua_newstate` is a C function and is modelled as always returning. An exception or `longjmp` out of it is not modelled. The contents of a thrown update exception are an opaque number.
- Thread safety of the registry and of scoped removal. The code assumes a single thread.
- `luaCallDetour` and `luaCloseDetour` (src/hook.cc:53-54). They are declared but never installed or used.
