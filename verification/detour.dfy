/**
  A detour as the interceptors see it: either installed (calls to the target
  land in the replacement) or removed (calls reach the original body), and
  the scoped removal both interceptors open on entry.

  The patching library itself is not part of this model. Its scoped-remove
  guard is taken to remember whether its removal took the detour out, and to
  reinstall on exit only in that case.
 */
module Detour {

  datatype HookState = Installed | Removed

  /** A live scoped-remove guard: whether opening it took the detour out. */
  datatype ScopedRemove = ScopedRemove(removed: bool)

  /** The guard together with the detour's state while the guard is open. */
  datatype Opened = Opened(guard: ScopedRemove, during: HookState)

  /** Open the guard: the detour is removed, whatever it was before. */
  function Open(state: HookState): (o: Opened)
    ensures o.during == Removed
    ensures o.guard.removed <==> state == Installed
  {
    Opened(ScopedRemove(state == Installed), Removed)
  }

  /** Close the guard: reinstall exactly when the guard was the one that removed. */
  function Close(guard: ScopedRemove, state: HookState): (r: HookState)
    ensures guard.removed ==> r == Installed
    ensures !guard.removed ==> r == state
  {
    if guard.removed then Installed else state
  }

  /** Opening and then closing the guard leaves the detour as it found it. */
  lemma BracketRestores(state: HookState)
    ensures Open(state).during == Removed
    ensures Close(Open(state).guard, Open(state).during) == state
  {
  }
}
