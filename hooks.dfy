/** Shared vocabulary of the engine model: the opaque things user code hands
    to the engine, and the trace of hook calls the engine makes. */
module Hooks {

  datatype Option<+T> = None | Some(value: T)

  /** A `GameRenderer` callback; the engine only ever invokes it. */
  datatype Renderer = Renderer(id: nat)

  /** The `Object...` payload handed from `pop` to `wakeup`; never inspected. */
  datatype Args = Args(id: nat)

  /** Identity of a game state on the stack. */
  type StateId = nat

  /** Identity of a game object inside a state. */
  type ObjectId = nat

  /** One observable call made by the engine into user code or into an
      external collaborator (timer, screen). */
  datatype Event =
    | Draw(renderer: Renderer)
    | ObjectUpdate(obj: ObjectId)
    | ObjectRender(obj: ObjectId)
    | ObjectDestroy(obj: ObjectId)
    | ObjectWakeup(obj: ObjectId, args: Args)
    | StateUpdate(state: StateId)
    | StateRender(state: StateId)
    | StateWakeup(state: StateId, args: Args)
    | StateClose(state: StateId)
    | TimerStart
    | TimerFinish
    | ScreenUpdate

  /** The trace of calls, in the order they were made. */
  class Log {
    var events: seq<Event>

    constructor ()
      ensures events == []
    {
      events := [];
    }
  }

  /** The trace left by invoking the given callbacks one after another. */
  function Draws(rs: seq<Renderer>): seq<Event>
  {
    seq(|rs|, i requires 0 <= i < |rs| => Draw(rs[i]))
  }

  lemma DrawsAppend(a: seq<Renderer>, b: seq<Renderer>)
    ensures Draws(a + b) == Draws(a) + Draws(b)
  {
    assert forall i :: 0 <= i < |a + b| ==> Draws(a + b)[i] == (Draws(a) + Draws(b))[i];
  }

  lemma AppendAssoc<T>(a: seq<T>, b: seq<T>, c: seq<T>)
    ensures a + (b + c) == (a + b) + c
  {
  }
}
