/** The per-state object collection (`ContainerState`): a list of game
    objects, each with a `destroy` flag. Flagged objects are skipped by the
    update pass and torn down and evicted by the next render pass, the one
    place where the list changes besides `add`. */
module Objects {
  import opened Hooks
  import opened Renderers

  /** A root game object as the collection sees it: its identity, its
      `destroy` flag, and the draw requests its `renderTree` puts into the
      frame's container. */
  datatype Node = Node(id: ObjectId, destroy: bool, draws: seq<DrawRequest>)

  /** The objects of `objs` whose flag is unset, in list order. */
  function Survivors(objs: seq<Node>): (r: seq<Node>)
    ensures |r| <= |objs|
    ensures forall o {:trigger o in r} :: o in r ==> o in objs && !o.destroy
    ensures forall o {:trigger o in r} :: o in objs && !o.destroy ==> o in r
  {
    if objs == [] then []
    else
      var init := Survivors(objs[..|objs| - 1]);
      var last := objs[|objs| - 1];
      assert forall o :: o in objs ==> o in objs[..|objs| - 1] || o == last;
      if last.destroy then init else init + [last]
  }

  /** The objects of `objs` whose flag is set, in list order. */
  function Flagged(objs: seq<Node>): (r: seq<Node>)
    ensures forall o {:trigger o in r} :: o in r ==> o in objs && o.destroy
    ensures forall o {:trigger o in r} :: o in objs && o.destroy ==> o in r
  {
    if objs == [] then []
    else
      var init := Flagged(objs[..|objs| - 1]);
      var last := objs[|objs| - 1];
      assert forall o :: o in objs ==> o in objs[..|objs| - 1] || o == last;
      if last.destroy then init + [last] else init
  }

  /** What `update()` calls, in order: `updateTree` on each unflagged object. */
  function UpdatePass(objs: seq<Node>): (es: seq<Event>)
    ensures |es| <= |objs|
  {
    if objs == [] then []
    else
      var last := objs[|objs| - 1];
      UpdatePass(objs[..|objs| - 1]) + (if last.destroy then [] else [ObjectUpdate(last.id)])
  }

  /** What the traversal of `render()` calls, in order: `renderTree` on an
      unflagged object, `destroyTree` on a flagged one. */
  function RenderPass(objs: seq<Node>): seq<Event>
  {
    if objs == [] then []
    else
      var last := objs[|objs| - 1];
      RenderPass(objs[..|objs| - 1])
        + (if last.destroy then [ObjectDestroy(last.id)] else [ObjectRender(last.id)])
  }

  /** The fresh container after the traversal of `render()`: every unflagged
      object has put its draw requests into it, in list order. */
  function Batch(objs: seq<Node>): Planes
  {
    if objs == [] then map[]
    else
      var last := objs[|objs| - 1];
      var b := Batch(objs[..|objs| - 1]);
      if last.destroy then b else PutAll(b, last.draws)
  }

  /** The `updateTree` calls of a pass that visits every object. */
  function Updates(objs: seq<Node>): (es: seq<Event>)
    ensures |es| == |objs|
    ensures forall i :: 0 <= i < |objs| ==> es[i] == ObjectUpdate(objs[i].id)
  {
    seq(|objs|, i requires 0 <= i < |objs| => ObjectUpdate(objs[i].id))
  }

  /** The `renderTree` calls of a pass that visits every object. */
  function Renders(objs: seq<Node>): (es: seq<Event>)
    ensures |es| == |objs|
    ensures forall i :: 0 <= i < |objs| ==> es[i] == ObjectRender(objs[i].id)
  {
    seq(|objs|, i requires 0 <= i < |objs| => ObjectRender(objs[i].id))
  }

  /** The `destroyTree` calls of a pass that visits every object. */
  function Destroys(objs: seq<Node>): (es: seq<Event>)
    ensures |es| == |objs|
    ensures forall i :: 0 <= i < |objs| ==> es[i] == ObjectDestroy(objs[i].id)
  {
    seq(|objs|, i requires 0 <= i < |objs| => ObjectDestroy(objs[i].id))
  }

  /** The `wakeupTree(args)` calls of a pass that visits every object. */
  function Wakeups(objs: seq<Node>, args: Args): (es: seq<Event>)
    ensures |es| == |objs|
    ensures forall i :: 0 <= i < |objs| ==> es[i] == ObjectWakeup(objs[i].id, args)
  {
    seq(|objs|, i requires 0 <= i < |objs| => ObjectWakeup(objs[i].id, args))
  }

  /** The draw requests of `objs`, object after object. */
  function AllDraws(objs: seq<Node>): seq<DrawRequest>
  {
    if objs == [] then [] else AllDraws(objs[..|objs| - 1]) + objs[|objs| - 1].draws
  }

  /** Events of one kind, in order: the `renderTree` calls of a trace. */
  function RenderCalls(es: seq<Event>): seq<Event>
  {
    if es == [] then []
    else RenderCalls(es[..|es| - 1]) + (if es[|es| - 1].ObjectRender? then [es[|es| - 1]] else [])
  }

  /** The `destroyTree` calls of a trace, in order. */
  function DestroyCalls(es: seq<Event>): seq<Event>
  {
    if es == [] then []
    else DestroyCalls(es[..|es| - 1]) + (if es[|es| - 1].ObjectDestroy? then [es[|es| - 1]] else [])
  }

  lemma {:induction false} RenderCallsAppend(a: seq<Event>, b: seq<Event>)
    ensures RenderCalls(a + b) == RenderCalls(a) + RenderCalls(b)
    ensures DestroyCalls(a + b) == DestroyCalls(a) + DestroyCalls(b)
    decreases |b|
  {
    if b == [] {
      assert a + b == a;
    } else {
      var b' := b[..|b| - 1];
      var last := b[|b| - 1];
      var r := if last.ObjectRender? then [last] else [];
      var d := if last.ObjectDestroy? then [last] else [];
      RenderCallsAppend(a, b');
      assert (a + b)[..|a + b| - 1] == a + b';
      assert (a + b)[|a + b| - 1] == last;
      assert RenderCalls(a + b) == RenderCalls(a + b') + r;
      assert RenderCalls(b) == RenderCalls(b') + r;
      AppendAssoc(RenderCalls(a), RenderCalls(b'), r);
      assert DestroyCalls(a + b) == DestroyCalls(a + b') + d;
      assert DestroyCalls(b) == DestroyCalls(b') + d;
      AppendAssoc(DestroyCalls(a), DestroyCalls(b'), d);
    }
  }

  /** Every object ends up in exactly one of the two lists: the survivors
      and the flagged ones together account for the whole list. */
  lemma {:induction false} SurvivorsFlaggedCount(objs: seq<Node>)
    ensures |Survivors(objs)| + |Flagged(objs)| == |objs|
  {
    if objs != [] {
      SurvivorsFlaggedCount(objs[..|objs| - 1]);
    }
  }

  /** The survivors and the flagged objects partition the list: every
      object is in exactly one of them, as often as it occurs. */
  lemma {:induction false} SurvivorsFlaggedPartition(objs: seq<Node>)
    ensures multiset(Survivors(objs)) + multiset(Flagged(objs)) == multiset(objs)
  {
    if objs != [] {
      var init := objs[..|objs| - 1];
      var last := objs[|objs| - 1];
      SurvivorsFlaggedPartition(init);
      assert objs == init + [last];
    }
  }

  /** A list with no flagged object loses nothing in a render pass; in
      particular a second render pass evicts nothing. */
  lemma {:induction false} SurvivorsUnflagged(objs: seq<Node>)
    requires forall o :: o in objs ==> !o.destroy
    ensures Survivors(objs) == objs
  {
    if objs != [] {
      var init := objs[..|objs| - 1];
      assert forall o :: o in init ==> o in objs;
      SurvivorsUnflagged(init);
      assert objs == init + [objs[|objs| - 1]];
    }
  }

  lemma SurvivorsIdempotent(objs: seq<Node>)
    ensures Survivors(Survivors(objs)) == Survivors(objs)
  {
    SurvivorsUnflagged(Survivors(objs));
  }

  /** Survivors and flags of a concatenation. */
  lemma {:induction false} SurvivorsAppend(a: seq<Node>, b: seq<Node>)
    ensures Survivors(a + b) == Survivors(a) + Survivors(b)
    decreases |b|
  {
    if b == [] {
      assert a + b == a;
    } else {
      var b' := b[..|b| - 1];
      var last := b[|b| - 1];
      var tail := if last.destroy then [] else [last];
      SurvivorsAppend(a, b');
      assert (a + b)[..|a + b| - 1] == a + b';
      assert (a + b)[|a + b| - 1] == last;
      assert Survivors(a + b) == Survivors(a + b') + tail;
      assert Survivors(b) == Survivors(b') + tail;
      AppendAssoc(Survivors(a), Survivors(b'), tail);
    }
  }

  /** `update()` calls `updateTree` exactly on the unflagged objects, once
      each, in list order. */
  lemma {:induction false} UpdatePassSkipsFlagged(objs: seq<Node>)
    ensures UpdatePass(objs) == Updates(Survivors(objs))
  {
    if objs != [] {
      var init := objs[..|objs| - 1];
      UpdatePassSkipsFlagged(init);
      var s := Survivors(init);
      var last := objs[|objs| - 1];
      if !last.destroy {
        assert Updates(s + [last]) == Updates(s) + [ObjectUpdate(last.id)];
      }
    }
  }

  /** In the traversal of `render()`, `renderTree` reaches exactly the
      unflagged objects and `destroyTree` exactly the flagged ones, each
      once and in list order. */
  lemma {:induction false} RenderPassSplits(objs: seq<Node>)
    ensures RenderCalls(RenderPass(objs)) == Renders(Survivors(objs))
    ensures DestroyCalls(RenderPass(objs)) == Destroys(Flagged(objs))
    ensures |RenderPass(objs)| == |objs|
  {
    if objs != [] {
      var init := objs[..|objs| - 1];
      var last := objs[|objs| - 1];
      RenderPassSplits(init);
      var step := if last.destroy then [ObjectDestroy(last.id)] else [ObjectRender(last.id)];
      RenderCallsAppend(RenderPass(init), step);
      assert step[..0] == [];
      if last.destroy {
        assert Destroys(Flagged(init) + [last]) == Destroys(Flagged(init)) + [ObjectDestroy(last.id)];
      } else {
        assert Renders(Survivors(init) + [last]) == Renders(Survivors(init)) + [ObjectRender(last.id)];
      }
    }
  }

  /** PutAll over a concatenation of request lists. */
  lemma {:induction false} PutAllAppend(m: Planes, a: seq<DrawRequest>, b: seq<DrawRequest>)
    ensures PutAll(m, a + b) == PutAll(PutAll(m, a), b)
    decreases |b|
  {
    if b == [] {
      assert a + b == a;
    } else {
      var b' := b[..|b| - 1];
      PutAllAppend(m, a, b');
      assert (a + b)[..|a + b| - 1] == a + b';
      assert (a + b)[|a + b| - 1] == b[|b| - 1];
    }
  }

  /** The frame's container holds exactly the draw requests of the
      unflagged objects, in list order. */
  lemma {:induction false} BatchIsSurvivorDraws(objs: seq<Node>)
    ensures Batch(objs) == PutAll(map[], AllDraws(Survivors(objs)))
  {
    if objs != [] {
      var init := objs[..|objs| - 1];
      var last := objs[|objs| - 1];
      BatchIsSurvivorDraws(init);
      if !last.destroy {
        var s := Survivors(init);
        assert (s + [last])[..|s|] == s;
        PutAllAppend(map[], AllDraws(s), last.draws);
      }
    }
  }

  /** The flush at the end of `render()` invokes every callback the
      unflagged objects put, exactly once, and nothing else. */
  lemma RenderFlushExactlyOnce(objs: seq<Node>)
    ensures multiset(Flush(Batch(objs))) == multiset(Callbacks(AllDraws(Survivors(objs))))
    ensures |Flush(Batch(objs))| == |AllDraws(Survivors(objs))|
  {
    BatchIsSurvivorDraws(objs);
    FlushFresh(AllDraws(Survivors(objs)));
  }

  /** How the prefix summaries grow by one object. */
  lemma PrefixStep(objs: seq<Node>, i: nat)
    requires i < |objs|
    ensures Survivors(objs[..i + 1])
            == Survivors(objs[..i]) + (if objs[i].destroy then [] else [objs[i]])
    ensures RenderPass(objs[..i + 1])
            == RenderPass(objs[..i])
               + (if objs[i].destroy then [ObjectDestroy(objs[i].id)] else [ObjectRender(objs[i].id)])
    ensures Batch(objs[..i + 1])
            == if objs[i].destroy then Batch(objs[..i]) else PutAll(Batch(objs[..i]), objs[i].draws)
  {
    assert objs[..i + 1][..i] == objs[..i];
  }

  /** How one step of the traversal of `render()` carries its loop
      invariants from the prefix `objs[..i]` to `objs[..i + 1]`. */
  lemma TraverseStep(objs: seq<Node>, i: nat, kept: seq<Node>, prefix: seq<Event>)
    requires i < |objs| && kept == Survivors(objs[..i])
    ensures (kept + objs[i..])[|kept|] == objs[i]
    ensures !objs[i].destroy ==>
              && kept + [objs[i]] == Survivors(objs[..i + 1])
              && kept + objs[i..] == (kept + [objs[i]]) + objs[i + 1..]
              && Batch(objs[..i + 1]) == PutAll(Batch(objs[..i]), objs[i].draws)
              && prefix + RenderPass(objs[..i]) + [ObjectRender(objs[i].id)]
                 == prefix + RenderPass(objs[..i + 1])
    ensures objs[i].destroy ==>
              && kept == Survivors(objs[..i + 1])
              && (kept + objs[i..])[..|kept|] + (kept + objs[i..])[|kept| + 1..] == kept + objs[i + 1..]
              && Batch(objs[..i + 1]) == Batch(objs[..i])
              && prefix + RenderPass(objs[..i]) + [ObjectDestroy(objs[i].id)]
                 == prefix + RenderPass(objs[..i + 1])
  {
    PrefixStep(objs, i);
    SplitAfter(kept, objs[i..]);
    assert objs[i..][0] == objs[i] && objs[i..][1..] == objs[i + 1..];
    var e := if objs[i].destroy then ObjectDestroy(objs[i].id) else ObjectRender(objs[i].id);
    AppendAssoc(prefix, RenderPass(objs[..i]), [e]);
  }

  /** The pieces of `a + b` around the first element of `b`. */
  lemma SplitAfter(a: seq<Node>, b: seq<Node>)
    requires b != []
    ensures (a + b)[..|a|] == a
    ensures (a + b)[|a|] == b[0]
    ensures (a + b)[|a| + 1..] == b[1..]
    ensures a + b == (a + [b[0]]) + b[1..]
  {
  }

  /** Models `GameObject.renderTree(renderers)`: the object's render hook
      runs and puts its draw requests into the frame's container. */
  method RenderTree(o: Node, renderers: RendererContainer, log: Log)
    modifies renderers, log
    ensures renderers.renderers == PutAll(old(renderers.renderers), o.draws)
    ensures log.events == old(log.events) + [ObjectRender(o.id)]
  {
    log.events := log.events + [ObjectRender(o.id)];
    for j := 0 to |o.draws|
      invariant renderers.renderers == PutAll(old(renderers.renderers), o.draws[..j])
      invariant log.events == old(log.events) + [ObjectRender(o.id)]
    {
      assert o.draws[..j + 1][..j] == o.draws[..j];
      renderers.Put(o.draws[j].plane, o.draws[j].renderer);
    }
    assert o.draws[..|o.draws|] == o.draws;
  }

  /** `ContainerState`: the root objects of one game state. */
  class ContainerState {
    var objects: seq<Node>

    constructor ()
      ensures objects == []
    {
      objects := [];
    }

    /** `add(o)`: append `o`; the objects already there keep their order. */
    method Add(o: Node)
      modifies this
      ensures objects == old(objects) + [o]
    {
      objects := objects + [o];
    }

    /** `update()`: `updateTree` on every unflagged object, in list order;
        the list itself is left alone. */
    method Update(log: Log)
      modifies log
      ensures log.events == old(log.events) + UpdatePass(objects)
    {
      for i := 0 to |objects|
        invariant log.events == old(log.events) + UpdatePass(objects[..i])
      {
        assert objects[..i + 1][..i] == objects[..i];
        if !objects[i].destroy {
          log.events := log.events + [ObjectUpdate(objects[i].id)];
        }
      }
      assert objects[..|objects|] == objects;
    }

    /** `render()`: walk the list, rendering unflagged objects into a fresh
        container and tearing down and unlinking flagged ones; then flush
        the container. */
    method Render(log: Log)
      modifies this, log
      ensures objects == Survivors(old(objects))
      ensures log.events == old(log.events) + RenderPass(old(objects))
                            + Draws(Flush(Batch(old(objects))))
    {
      var renderers := new RendererContainer();
      Traverse(renderers, log);
      renderers.Render(log);
    }

    /** The iterator loop of `render()`: `i.next()` visits each object once;
        `i.remove()` unlinks a flagged one in place after its `destroyTree`. */
    method Traverse(renderers: RendererContainer, log: Log)
      requires renderers.renderers == map[]
      modifies this, renderers, log
      ensures objects == Survivors(old(objects))
      ensures renderers.renderers == Batch(old(objects))
      ensures log.events == old(log.events) + RenderPass(old(objects))
    {
      ghost var objs, start := objects, log.events;
      ghost var kept: seq<Node> := [];
      ghost var i := 0;
      var k := 0;
      while k < |objects|
        invariant 0 <= i <= |objs|
        invariant kept == Survivors(objs[..i]) && k == |kept|
        invariant objects == kept + objs[i..]
        invariant renderers.renderers == Batch(objs[..i])
        invariant log.events == start + RenderPass(objs[..i])
        decreases |objects| - k
      {
        TraverseStep(objs, i, kept, start);
        var evicted := Visit(k, renderers, log);
        if !evicted {
          k := k + 1;
          kept := kept + [objs[i]];
        }
        i := i + 1;
        assert kept == Survivors(objs[..i]);
      }
      assert |objs[i..]| == 0;
      assert i == |objs|;
      assert objs[..i] == objs;
    }

    /** One step of the iterator loop of `render()`, on the object at
        position `k`: render it into `renderers` if it is unflagged,
        otherwise tear it down and unlink it. */
    method Visit(k: nat, renderers: RendererContainer, log: Log) returns (evicted: bool)
      requires k < |objects|
      modifies this, renderers, log
      ensures evicted == old(objects)[k].destroy
      ensures !evicted ==> && objects == old(objects)
                           && renderers.renderers == PutAll(old(renderers.renderers), old(objects)[k].draws)
                           && log.events == old(log.events) + [ObjectRender(old(objects)[k].id)]
      ensures evicted ==> && objects == old(objects)[..k] + old(objects)[k + 1..]
                          && renderers.renderers == old(renderers.renderers)
                          && log.events == old(log.events) + [ObjectDestroy(old(objects)[k].id)]
    {
      var o := objects[k];
      if !o.destroy {
        RenderTree(o, renderers, log);
        evicted := false;
      } else {
        log.events := log.events + [ObjectDestroy(o.id)];
        objects := objects[..k] + objects[k + 1..];
        evicted := true;
      }
    }

    /** `wakeup(args)`: `wakeupTree(args)` on every object, flagged or not. */
    method Wakeup(args: Args, log: Log)
      modifies log
      ensures log.events == old(log.events) + Wakeups(objects, args)
    {
      for i := 0 to |objects|
        invariant log.events == old(log.events) + Wakeups(objects[..i], args)
      {
        assert Wakeups(objects[..i + 1], args)
               == Wakeups(objects[..i], args) + [ObjectWakeup(objects[i].id, args)];
        log.events := log.events + [ObjectWakeup(objects[i].id, args)];
      }
      assert objects[..|objects|] == objects;
    }

    /** `close()`: `destroyTree` on every object, in order; nothing is
        removed from the list. */
    method Close(log: Log)
      modifies log
      ensures log.events == old(log.events) + Destroys(objects)
    {
      for i := 0 to |objects|
        invariant log.events == old(log.events) + Destroys(objects[..i])
      {
        assert Destroys(objects[..i + 1]) == Destroys(objects[..i]) + [ObjectDestroy(objects[i].id)];
        log.events := log.events + [ObjectDestroy(objects[i].id)];
      }
      assert objects[..|objects|] == objects;
    }
  }
}
