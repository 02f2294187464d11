# UbiEngine frame scheduling, in Dafny

This project models the frame-scheduling core of UbiEngine, a small Java 2D
game engine. The model has three parts:

- **The render batch** (`RendererContainer`, module `Renderers`,
  `renderers.dfy`).
  - Draw callbacks are queued on integer planes with `put`.
  - `render` drains them: planes in ascending signed order, FIFO within a
    plane. The container is left empty.
  - The `TreeMap<Integer, List<GameRenderer>>` is a `map<int, seq<Renderer>>`.
  - The callbacks invoked are recorded in a trace.
  - The drain order is specified by the ghost function `Flush`. It takes the
    least plane first (`Least`), then recurses on the rest.
- **The per-state object list** (`ContainerState`, module `Objects`,
  `objects.dfy`).
  - `add` appends an object.
  - `update` calls `updateTree` on the objects without the `destroy` flag.
  - `render` walks the list once:
    - an unflagged object is rendered into a fresh render batch;
    - a flagged object is torn down and unlinked in place.

    The batch is flushed only after the walk.
  - `wakeup` and `close` forward to every object.
  - A game object is a `Node`: an id, its `destroy` flag, and the `put` calls
    its `renderTree` makes.
- **The game loop** (`UosGame`, module `Game`, `game.dfy`).
  - It holds a stack of game states.
  - `change`, `push` and `pop` only write a single pending-intent slot
    (`change_option`, `state_change`, `pop_args`).
  - `checkStateChange` applies the slot once per frame, then clears it.
  - `run` repeats frames until the stack is empty. A frame is: timer start,
    update every state, render every state, screen update, timer finish,
    commit.
  - `Settings.validate` fills four default settings.

Every call the engine makes into user code, the timer or the screen is an
`Event` appended to a shared `Log` (module `Hooks`, `hooks.dfy`). The
ordering guarantees are therefore statements about that trace.

The mutable classes are Dafny classes whose methods change their fields:
`RendererContainer.renderers`, `ContainerState.objects`, `UosGame.states` and
the slot fields, and `Settings.entries`. Each method is proved against a
specification function of the old state: `Insert`/`Flush`,
`Survivors`/`RenderPass`/`Batch`, `Record`/`Commit`/`RunFrames`, and
`WithDefaults`. Lemmas prove what the source promises about those functions.

Requests made by hooks during a frame are an input to `UosGame.Frame`. They
only write the slot, so the model records them after the two passes, before
the commit; the result is the same.

## Model

| member | source | states |
|---|---|---|
| Renderers.Insert | src/org/unbiquitous/ubiengine/engine/core/RendererContainer.java:19-26 | `put(z, r)` makes plane `z` present, appends `r` at the end of its list (an absent plane counts as an empty list), and leaves every other plane's list unchanged |
| Renderers.PutAll | src/org/unbiquitous/ubiengine/engine/core/RendererContainer.java:19-26 | a series of `put`s is `Insert` applied once per request, in order (no contract of its own; see `PutAllOnlyAppends` and `FlushPutAll`) |
| Renderers.PutAllOnlyAppends | src/org/unbiquitous/ubiengine/engine/core/RendererContainer.java:19-26 | a series of `put`s removes no plane and no queued callback (every plane's old list is a prefix of its new one) and makes every requested plane present |
| Renderers.RendererContainer.Put | src/org/unbiquitous/ubiengine/engine/core/RendererContainer.java:19-26 | the container afterwards is `Insert` of the old one |
| Renderers.RendererContainer.Render | src/org/unbiquitous/ubiengine/engine/core/RendererContainer.java:31-37 | the container ends empty, so a second `render` invokes nothing; the trace gains exactly the draws of `Flush` of the old container, in that order |
| Renderers.InvokeAll | src/org/unbiquitous/ubiengine/engine/core/RendererContainer.java:34-35 | draining one plane's list with `removeFirst` invokes its callbacks front to back |
| Renderers.Flush | src/org/unbiquitous/ubiengine/engine/core/RendererContainer.java:31-36 | the drain order of `render`: the least plane's list in FIFO order, then the drain of the rest (no contract of its own; its properties are `FlushFirst` to `FlushFresh`) |
| Renderers.Least | src/org/unbiquitous/ubiengine/engine/core/RendererContainer.java:33 | `pollFirstEntry` takes a present plane that is less than or equal to every other present plane |
| Renderers.FlushFirst | src/org/unbiquitous/ubiengine/engine/core/RendererContainer.java:31-36 | a drain begins with the whole list of the least plane and continues with the rest of the map |
| Renderers.FlushSplit | src/org/unbiquitous/ubiengine/engine/core/RendererContainer.java:31-36 | for any `z`, every callback on a plane below `z` runs before every callback on a plane at or above `z` |
| Renderers.FlushAround | src/org/unbiquitous/ubiengine/engine/core/RendererContainer.java:31-36 | the drain is: the planes below `z`, then `z`'s list in FIFO order, then the planes above `z` |
| Renderers.FlushOrdered | src/org/unbiquitous/ubiengine/engine/core/RendererContainer.java:31-36 | for planes `p < q`, all of `p`'s callbacks run, in FIFO order, before any of `q`'s, with only the planes strictly between in between |
| Renderers.FlushInsert | src/org/unbiquitous/ubiengine/engine/core/RendererContainer.java:19-36 | a `put(z, r)` invocation runs after everything already queued on planes up to `z` and before everything on higher planes |
| Renderers.FlushInsertCount | src/org/unbiquitous/ubiengine/engine/core/RendererContainer.java:19-37 | one `put` adds exactly one invocation, of its own callback, to the drain |
| Renderers.FlushPutAll | src/org/unbiquitous/ubiengine/engine/core/RendererContainer.java:19-37 | after a series of `put`s the drain invokes the callbacks already queued plus each put callback exactly once (as a multiset and by count) |
| Renderers.FlushFresh | src/org/unbiquitous/ubiengine/engine/core/RendererContainer.java:19-37 | from an empty container, the number of invocations equals the number of `put`s and each put callback is invoked exactly once |
| Renderers.ExampleBatch | src/org/unbiquitous/ubiengine/engine/core/RendererContainer.java:19-26 | put(5, a); put(-1, b); put(5, c) leaves plane 5 with [a, c] and plane -1 with [b] |
| Renderers.FlushExample | src/org/unbiquitous/ubiengine/engine/core/RendererContainer.java:19-37 | that batch drains as b, a, c: the negative plane first, then plane 5 in put order |
| Renderers.RendererContainer.constructor | src/org/unbiquitous/ubiengine/engine/core/RendererContainer.java:41 | a new container holds no planes |
| Objects.Survivors | src/org/unbiquitous/ubiengine/engine/core/ContainerState.java:41-50 | the objects kept by `render`: every element is an unflagged element of the list, every unflagged element is kept, and the list does not grow |
| Objects.Flagged | src/org/unbiquitous/ubiengine/engine/core/ContainerState.java:41-50 | the objects `render` tears down and unlinks: every element is a flagged element of the list, and every flagged element is one of them |
| Objects.SurvivorsFlaggedPartition | src/org/unbiquitous/ubiengine/engine/core/ContainerState.java:41-50 | the kept objects and the evicted objects together are the old list as a multiset: nothing is duplicated or lost |
| Objects.UpdatePass | src/org/unbiquitous/ubiengine/engine/core/ContainerState.java:29-34 | the `updateTree` calls of `update`: at most one per object (exactly the unflagged ones, by `UpdatePassSkipsFlagged`) |
| Objects.RenderPass | src/org/unbiquitous/ubiengine/engine/core/ContainerState.java:41-50 | the `renderTree`/`destroyTree` calls of the traversal of `render`, one per object in list order (no contract of its own; see `RenderPassSplits`) |
| Objects.Batch | src/org/unbiquitous/ubiengine/engine/core/ContainerState.java:40-50 | the fresh container after the traversal: the `put`s of the unflagged objects applied in list order (no contract of its own; see `BatchIsSurvivorDraws`) |
| Objects.SurvivorsFlaggedCount | src/org/unbiquitous/ubiengine/engine/core/ContainerState.java:41-50 | the kept objects and the flagged objects together account for the whole list |
| Objects.SurvivorsUnflagged | src/org/unbiquitous/ubiengine/engine/core/ContainerState.java:41-50 | a list without flagged objects loses nothing in `render` |
| Objects.SurvivorsIdempotent | src/org/unbiquitous/ubiengine/engine/core/ContainerState.java:39-52 | a second `render` with no flag set in between evicts nothing more |
| Objects.SurvivorsAppend | src/org/unbiquitous/ubiengine/engine/core/ContainerState.java:41-50 | filtering distributes over concatenation, so survivors keep their relative order |
| Objects.UpdatePassSkipsFlagged | src/org/unbiquitous/ubiengine/engine/core/ContainerState.java:29-34 | `update` calls `updateTree` exactly on the unflagged objects, once each, in list order |
| Objects.RenderPassSplits | src/org/unbiquitous/ubiengine/engine/core/ContainerState.java:40-51 | during `render`, `renderTree` reaches exactly the unflagged objects and `destroyTree` exactly the flagged ones, each once and in list order, one call per object |
| Objects.BatchIsSurvivorDraws | src/org/unbiquitous/ubiengine/engine/core/ContainerState.java:40-51 | the fresh container holds exactly the `put`s of the unflagged objects, in list order |
| Objects.RenderFlushExactlyOnce | src/org/unbiquitous/ubiengine/engine/core/ContainerState.java:40-51 | the flush at the end of `render` invokes each callback the unflagged objects put exactly once, and nothing else |
| Objects.RenderTree | src/org/unbiquitous/ubiengine/engine/core/ContainerState.java:44-45 | `renderTree` logs the object's render call and puts its draw requests into the frame's container, in order |
| Objects.ContainerState.Add | src/org/unbiquitous/ubiengine/engine/core/ContainerState.java:20-22 | `add(o)` appends `o`; the objects already there and their order are unchanged |
| Objects.ContainerState.Update | src/org/unbiquitous/ubiengine/engine/core/ContainerState.java:29-34 | the list is not changed; the trace gains the update pass (see `UpdatePassSkipsFlagged`) |
| Objects.ContainerState.Render | src/org/unbiquitous/ubiengine/engine/core/ContainerState.java:39-52 | the list becomes the survivors of the old list; the trace gains the traversal's render/destroy calls, followed by the flush of the batch of the old list's unflagged objects |
| Objects.ContainerState.Traverse | src/org/unbiquitous/ubiengine/engine/core/ContainerState.java:41-50 | the iterator loop with `i.remove()` leaves exactly the survivors, fills the container with their draws and logs one call per object |
| Objects.TraverseStep | src/org/unbiquitous/ubiengine/engine/core/ContainerState.java:43-49 | one visit moves the loop's description from the prefix `objs[..i]` to `objs[..i + 1]`: the cursor object is the next unvisited one; a kept object extends the survivors, the batch and the render calls; an evicted one is cut out of the list and adds only its destroy call |
| Objects.ContainerState.Visit | src/org/unbiquitous/ubiengine/engine/core/ContainerState.java:43-49 | one step of the iterator loop on the object at the cursor: an unflagged object stays, its `put`s go into the container and its render call is logged; a flagged one is unlinked from exactly that position, the container is untouched and its destroy call is logged |
| Objects.ContainerState.Wakeup | src/org/unbiquitous/ubiengine/engine/core/ContainerState.java:57-60 | `wakeupTree(args)` reaches every object, flagged or not, in order; the list is not changed |
| Objects.ContainerState.Close | src/org/unbiquitous/ubiengine/engine/core/ContainerState.java:65-68 | `destroyTree` reaches every object in order; nothing is removed from the list |
| Objects.ContainerState.constructor | src/org/unbiquitous/ubiengine/engine/core/ContainerState.java:70 | a new state holds no objects |
| Game.WithDefaults | src/org/unbiquitous/ubiengine/engine/UosGame.java:61-69 | the settings gain exactly the missing default keys with their default values; present keys keep their values |
| Game.WithDefaultsStep | src/org/unbiquitous/ubiengine/engine/UosGame.java:62-63 | putting one missing default by hand does not change the filled result |
| Game.WithDefaultsComplete | src/org/unbiquitous/ubiengine/engine/UosGame.java:61-69 | settings that already have the four keys are left unchanged |
| Game.WithDefaultsIdempotent | src/org/unbiquitous/ubiengine/engine/UosGame.java:61-69 | filling the defaults a second time changes nothing |
| Game.ValidateSettings | src/org/unbiquitous/ubiengine/engine/UosGame.java:61-73 | a successful `validate` leaves exactly `WithDefaults` of the settings; a failing one reports "First game state not defined!" |
| Game.ValidateNeverRejects | src/org/unbiquitous/ubiengine/engine/UosGame.java:70-71 | the "First game state not defined!" error is never raised, even when `first_state` is absent |
| Game.ValidateFirstState | src/org/unbiquitous/ubiengine/engine/UosGame.java:70-71 | a validation that tests `first_state` rejects exactly the settings without it |
| Game.Settings.Validate | src/org/unbiquitous/ubiengine/engine/UosGame.java:61-73 | the map is updated in place to `WithDefaults` of the old map; the result reports the as-written outcome |
| Game.Record | src/org/unbiquitous/ubiengine/engine/UosGame.java:180-193 | each request sets the option and its own field and keeps the other field; the slot stays well-formed |
| Game.RecordAll | src/org/unbiquitous/ubiengine/engine/UosGame.java:180-193 | a series of requests keeps the slot well-formed; no requests leave it as it was |
| Game.Commit | src/org/unbiquitous/ubiengine/engine/UosGame.java:152-178 | a commit fails exactly when CHANGE or POP meets an empty stack |
| Game.CommitIdle | src/org/unbiquitous/ubiengine/engine/UosGame.java:153-155 | a commit with nothing pending leaves the stack alone and calls no hook |
| Game.CommitChange | src/org/unbiquitous/ubiengine/engine/UosGame.java:157-160 | CHANGE closes the old top, keeps the length and the entries below, and puts the new state on top without waking it |
| Game.CommitPush | src/org/unbiquitous/ubiengine/engine/UosGame.java:162-164 | PUSH appends the state and closes nothing |
| Game.CommitPop | src/org/unbiquitous/ubiengine/engine/UosGame.java:166-170 | POP closes and removes the top, then wakes the new top with the pop arguments only if there is one |
| Game.LastWriterWins | src/org/unbiquitous/ubiengine/engine/UosGame.java:180-193 | only the last request before a commit decides it, whatever was pending or requested earlier |
| Game.PushThenPop | src/org/unbiquitous/ubiengine/engine/UosGame.java:162-170 | a push followed by a pop restores the stack, closing the pushed state and waking the covered one |
| Game.StateUpdates | src/org/unbiquitous/ubiengine/engine/UosGame.java:130-133 | the update pass reaches every stack entry, bottom to top |
| Game.StateRenders | src/org/unbiquitous/ubiengine/engine/UosGame.java:135-137 | the render pass reaches every stack entry, bottom to top |
| Game.Passes | src/org/unbiquitous/ubiengine/engine/UosGame.java:122-125 | the calls of one frame before its commit: timer start, one update and one render per stack entry, the screen update, the timer finish |
| Game.FrameTrace | src/org/unbiquitous/ubiengine/engine/UosGame.java:120-139 | one frame's calls are its passes followed by the commit's calls, and nothing else |
| Game.CommitCallsOnlyStates | src/org/unbiquitous/ubiengine/engine/UosGame.java:152-178 | a commit calls only `close` and `wakeup` hooks |
| Game.FrameOrder | src/org/unbiquitous/ubiengine/engine/UosGame.java:120-139 | in a frame the timer starts first, every update precedes every render, the screen is updated exactly once after the last render, the timer then finishes, and the commit's calls come last |
| Game.RunFrames | src/org/unbiquitous/ubiengine/engine/UosGame.java:120-127 | the loop runs at most the given number of frames and stops early only on an empty stack; an empty stack runs no frame |
| Game.RunStep | src/org/unbiquitous/ubiengine/engine/UosGame.java:121-126 | on a non-empty stack one loop iteration commits (the commit cannot fail); the rest of the run, its stack and its calls continue from the committed stack with a cleared slot, after that frame's `FrameTrace` |
| Game.RunTrace | src/org/unbiquitous/ubiengine/engine/UosGame.java:120-127 | the calls of the whole loop are the frames' traces one after the other, until the stack is empty (no contract of its own; see `RunTraceScreenUpdates` and `UosGame.Run`) |
| Game.RunTraceScreenUpdates | src/org/unbiquitous/ubiengine/engine/UosGame.java:120-139 | over the whole loop the screen is updated exactly once per frame run, as counted by `RunFrames` |
| Game.PopEndsRun | src/org/unbiquitous/ubiengine/engine/UosGame.java:120-127 | a single state whose first frame ends with a pop request ends the loop after exactly one frame |
| Game.UosGame.constructor | src/org/unbiquitous/ubiengine/engine/UosGame.java:148-150 | the game starts with its first state alone on the stack and an empty slot |
| Game.UosGame.Change | src/org/unbiquitous/ubiengine/engine/UosGame.java:180-183 | `change` writes only `state_change` and `change_option`, as `Record` says; the stack is untouched |
| Game.UosGame.Push | src/org/unbiquitous/ubiengine/engine/UosGame.java:185-188 | `push` writes only `state_change` and `change_option`, as `Record` says; the stack is untouched |
| Game.UosGame.Pop | src/org/unbiquitous/ubiengine/engine/UosGame.java:190-193 | `pop` writes only `pop_args` and `change_option`, as `Record` says; the stack is untouched |
| Game.UosGame.CheckStateChange | src/org/unbiquitous/ubiengine/engine/UosGame.java:152-178 | the stack and trace become those of `Commit` and the slot is cleared; on the `removeLast` failure nothing changes |
| Game.UosGame.Update | src/org/unbiquitous/ubiengine/engine/UosGame.java:130-133 | the trace gains `update` of every state, bottom to top |
| Game.UosGame.Render | src/org/unbiquitous/ubiengine/engine/UosGame.java:135-139 | the trace gains `render` of every state, bottom to top, then one screen update |
| Game.UosGame.RecordRequests | src/org/unbiquitous/ubiengine/engine/UosGame.java:180-193 | the hooks' requests of one frame leave the slot as `RecordAll` says and touch nothing else |
| Game.UosGame.Frame | src/org/unbiquitous/ubiengine/engine/UosGame.java:121-126 | one frame on a non-empty stack always commits, applies the frame's last request and clears the slot; its trace is `FrameTrace` (see `FrameOrder`) |
| Game.UosGame.Run | src/org/unbiquitous/ubiengine/engine/UosGame.java:120-127 | the stack and frame count at the end are those of `RunFrames`; the trace gains exactly `RunTrace`, each frame's calls in order; after at least one frame the slot is cleared, and when no frame runs it keeps its old value |

## Left out

- The uOS bootstrap (`run(Class)`, the empty `init(OntologyDeploy, …)` and `tearDown`) is left out. It is middleware configuration.
- The body of `init(Gateway)` is left out: the screen, input managers, the component container, and creating the first state by reflection. The model starts from a given first state (`UosGame.constructor`).
- `start`, `stop` and `close` are left out. They catch errors and log them to a file, and close the screen.
- `build` is left out. It is an unfinished stub that always returns null.
- `DeltaTime` and `Screen` are external (a timer is assumed present; see the next line). Their calls are the trace events `TimerStart`, `TimerFinish` and `ScreenUpdate`.
- Game.UosGame.Frame: the source never assigns the `deltatime` field (UosGame.java:79; `init` passes the still-null field to `Screen` at :96), so `deltatime.start()` at :122 throws `NullPointerException` on the first frame, and `start` (:205) catches only `Error`. The model assumes `init` supplied a timer, and its frame always reaches the passes and the commit.
- Game.UosGame.Run: as written, `run` therefore ends on its first frame with that exception. The model runs the loop the code evidently intends, with a timer present.
- A game object's `destroy` flag is part of an immutable `Node`. No operation flags an object already in the list; user code sets the flag between passes, and the class that holds it is not part of this model. The model starts each `render` from whatever flags the list holds, so that setting of the flag is not modelled as a call.
- `GameState` hooks are atomic trace events about a state id. How a `ContainerState`'s own `update`, `render`, `close` and `wakeup` (ContainerState.java:29-68) nest inside a state's `update`, `render`, `close` and `wakeup` events, including the commit's `StateClose`/`StateWakeup`, is not modelled.
- A game object's `updateTree`, `renderTree`, `destroyTree` and `wakeupTree` are trace events on its id. What each tree does inside is not modelled, except the `put` calls `renderTree` makes. The `core.GameObject` class holding `destroy` is not part of this model.
- Hooks that call back into `put`, `add`, `change`, `push` or `pop` while a pass is running are not modelled. A frame's `change`/`push`/`pop` calls are recorded after the passes, which gives the same slot. A `change`, `push` or `pop` made by a `close` or `wakeup` hook inside `checkStateChange` (UosGame.java:158, :167, :169) is wiped by the slot reset at :175-177; such requests are lost in the engine and are not modelled.
- Game states, game objects, renderer callbacks and `Object...` payloads are opaque ids.
- `change(null)` and `push(null)` are not modelled, because states are ids. `Record` therefore always writes a state.
- Game.UosGame.Run: the Java loop need not terminate. The model runs at most one frame per element of its script and says nothing about frames past the script.
- Game.UosGame.CheckStateChange: on an empty stack, CHANGE and POP raise `NoSuchElementException` from `removeLast`. The model returns `false` with nothing changed instead of raising.
- The `default` branch of `checkStateChange` (an invalid `ChangeOption`) is not modelled. No value of the enumeration reaches it.
- `Settings` values are a small datatype (text, integer, other). A key explicitly mapped to `null` counts as absent in Java; the model has no `null` value.

## Findings

| source | as written | input that shows it | evidently intended | confidence | as-written member | corrected member |
|---|---|---|---|---|---|---|
| src/org/unbiquitous/ubiengine/engine/UosGame.java:70-71 | the final test of `validate` re-checks `root_path`, which the first test has just filled, so "First game state not defined!" can never be raised | settings with no `first_state` key pass validation | test `first_state`, the key the message names and `init` reads | high; not executed | Game.ValidateNeverRejects | Game.ValidateFirstState |
