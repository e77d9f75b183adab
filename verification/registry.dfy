/**
  The process-wide list of Lua states the loader manages (`activeStates`, a
  `std::list<lua_state*>`), with its three operations. The list keeps
  insertion order and may hold a handle more than once.
 */
module Registry {
  import opened Lua

  type ActiveStates = seq<Ptr>

  /** `add_active_state`: append at the back, without looking for an earlier copy. */
  function AddActiveState(states: ActiveStates, state: Ptr): (r: ActiveStates)
    ensures |r| == |states| + 1
    ensures r[..|states|] == states
    ensures r[|states|] == state
    ensures multiset(r) == multiset(states)[state := multiset(states)[state] + 1]
  {
    states + [state]
  }

  /**
    `remove_active_state`: `std::list::remove`, which erases every element
    equal to the handle and leaves the others where they were.
   */
  function RemoveActiveState(states: ActiveStates, state: Ptr): (r: ActiveStates)
    ensures state !in r
    ensures multiset(r) == multiset(states)[state := 0]
    ensures state !in states ==> r == states
    ensures forall x :: x != state ==> (x in r <==> x in states)
    decreases |states|
  {
    if |states| == 0 then []
    else
      assert states == [states[0]] + states[1..];
      if states[0] == state then RemoveActiveState(states[1..], state)
      else [states[0]] + RemoveActiveState(states[1..], state)
  }

  /** `check_active_state`: a front-to-back scan that stops at the first equal handle. */
  method CheckActiveState(states: ActiveStates, state: Ptr) returns (found: bool)
    ensures found <==> state in states
  {
    var i := 0;
    while i < |states|
      invariant 0 <= i <= |states|
      invariant forall j :: 0 <= j < i ==> states[j] != state
    {
      if states[i] == state {
        return true;
      }
      i := i + 1;
    }
    return false;
  }

  /**
    Removal works element by element: removing from a concatenation is the
    concatenation of the removals, so the survivors keep their relative order.
   */
  lemma {:induction false} RemoveKeepsOrder(a: ActiveStates, b: ActiveStates, state: Ptr)
    ensures RemoveActiveState(a + b, state) == RemoveActiveState(a, state) + RemoveActiveState(b, state)
    decreases |a|
  {
    if |a| == 0 {
      assert a + b == b;
    } else {
      assert (a + b)[0] == a[0];
      assert (a + b)[1..] == a[1..] + b;
      RemoveKeepsOrder(a[1..], b, state);
      var rest := RemoveActiveState(a[1..], state);
      if a[0] != state {
        assert [a[0]] + (rest + RemoveActiveState(b, state)) == ([a[0]] + rest) + RemoveActiveState(b, state);
      }
    }
  }

  /** A single handle survives removal exactly when it is not the one removed. */
  lemma RemoveSingleton(x: Ptr, state: Ptr)
    ensures RemoveActiveState([x], state) == if x == state then [] else [x]
  {
  }

  /** `state` added `k` times at the back. */
  function AddRepeatedly(states: ActiveStates, state: Ptr, k: nat): ActiveStates
  {
    if k == 0 then states else AddActiveState(AddRepeatedly(states, state, k - 1), state)
  }

  /**
    Adding a handle any number of times and then removing it leaves the same
    list as removing it straight away: one removal undoes every duplicate add.
   */
  lemma {:induction false} RemoveUndoesRepeatedAdds(states: ActiveStates, state: Ptr, k: nat)
    ensures RemoveActiveState(AddRepeatedly(states, state, k), state) == RemoveActiveState(states, state)
  {
    if k > 0 {
      var j: nat := k - 1;
      var before := AddRepeatedly(states, state, j);
      assert AddRepeatedly(states, state, k) == AddActiveState(before, state);
      RemoveUndoesRepeatedAdds(states, state, j);
      RemoveAfterAdd(before, state);
    }
  }

  /** Removing a handle just added removes the copies already there too, and nothing else. */
  lemma RemoveAfterAdd(states: ActiveStates, state: Ptr)
    ensures RemoveActiveState(AddActiveState(states, state), state) == RemoveActiveState(states, state)
  {
    RemoveKeepsOrder(states, [state], state);
    RemoveSingleton(state, state);
    assert RemoveActiveState(states, state) + [] == RemoveActiveState(states, state);
  }

  /** Right after an add the handle is present; right after a remove it is absent. */
  lemma AddThenRemove(states: ActiveStates, state: Ptr)
    ensures state in AddActiveState(states, state)
    ensures state !in RemoveActiveState(AddActiveState(states, state), state)
  {
  }

  /** A registry operation as the loader could issue it. */
  datatype Op = Add(state: Ptr) | Remove(state: Ptr)

  function Apply(states: ActiveStates, op: Op): ActiveStates
  {
    match op
    case Add(s) => AddActiveState(states, s)
    case Remove(s) => RemoveActiveState(states, s)
  }

  /** Run the operations in order. */
  function Replay(states: ActiveStates, ops: seq<Op>): ActiveStates
    decreases |ops|
  {
    if |ops| == 0 then states else Replay(Apply(states, ops[0]), ops[1..])
  }

  /** Whether the last operation naming `state` adds it (`Some(true)`), removes it, or there is none. */
  function LastMention(ops: seq<Op>, state: Ptr): Option<bool>
    decreases |ops|
  {
    if |ops| == 0 then None
    else
      match LastMention(ops[1..], state)
      case Some(b) => Some(b)
      case None => if ops[0].state == state then Some(ops[0].Add?) else None
  }

  datatype Option<T> = None | Some(value: T)

  /**
    After any sequence of adds and removes, a handle is registered exactly when
    the last operation naming it was an add, or, if none names it, when it was
    registered at the start.
   */
  lemma {:induction false} ReplayMembership(states: ActiveStates, ops: seq<Op>, state: Ptr)
    ensures state in Replay(states, ops) <==>
      match LastMention(ops, state)
      case Some(added) => added
      case None => state in states
    decreases |ops|
  {
    if |ops| > 0 {
      var next := Apply(states, ops[0]);
      ReplayMembership(next, ops[1..], state);
      assert Replay(states, ops) == Replay(next, ops[1..]);
      if ops[0].state == state {
        assert state in next <==> ops[0].Add?;
      } else {
        assert state in next <==> state in states;
      }
    }
  }
}
