/** The per-frame render batch (`RendererContainer`): draw callbacks grouped
    by an integer plane, drained in ascending plane order and FIFO within a
    plane. The `TreeMap` of lists is modelled as a map from plane to the
    list queued on it. */
module Renderers {
  import opened Hooks

  /** The container's state: plane -> callbacks queued on it, oldest first. */
  type Planes = map<int, seq<Renderer>>

  /** One `put(z, renderer)` call. */
  datatype DrawRequest = DrawRequest(plane: int, renderer: Renderer)

  /** The list queued on plane `z`, empty when the plane has none. */
  function Plane(m: Planes, z: int): seq<Renderer>
  {
    if z in m then m[z] else []
  }

  /** The effect of `put(z, r)`: `r` goes to the end of plane `z`'s list,
      which is created if absent; every other plane is left alone. */
  function Insert(m: Planes, z: int, r: Renderer): (m': Planes)
    ensures m'.Keys == m.Keys + {z}
    ensures Plane(m', z) == Plane(m, z) + [r]
    ensures forall k :: k != z ==> Plane(m', k) == Plane(m, k)
  {
    m[z := Plane(m, z) + [r]]
  }

  /** The effect of the `put` calls `puts`, made in order. */
  function PutAll(m: Planes, puts: seq<DrawRequest>): Planes
  {
    if puts == [] then m
    else
      var last := puts[|puts| - 1];
      Insert(PutAll(m, puts[..|puts| - 1]), last.plane, last.renderer)
  }

  /** A series of `put`s only ever appends: every plane keeps its list as a
      prefix, no plane disappears, and each put plane is present. */
  lemma {:induction false} PutAllOnlyAppends(m: Planes, puts: seq<DrawRequest>)
    ensures m.Keys <= PutAll(m, puts).Keys
    ensures forall k :: Plane(m, k) <= Plane(PutAll(m, puts), k)
    ensures forall i :: 0 <= i < |puts| ==> puts[i].plane in PutAll(m, puts)
    decreases |puts|
  {
    if puts != [] {
      var init := puts[..|puts| - 1];
      var last := puts[|puts| - 1];
      PutAllOnlyAppends(m, init);
      forall i | 0 <= i < |puts| - 1
        ensures puts[i].plane in PutAll(m, puts)
      {
        assert puts[i] == init[i];
      }
    }
  }

  /** The callbacks of `puts`, in the order they were put. */
  function Callbacks(puts: seq<DrawRequest>): (rs: seq<Renderer>)
    ensures |rs| == |puts|
    ensures forall i :: 0 <= i < |puts| ==> rs[i] == puts[i].renderer
  {
    if puts == [] then [] else Callbacks(puts[..|puts| - 1]) + [puts[|puts| - 1].renderer]
  }

  lemma HasMember(s: set<int>)
    ensures s != {} ==> exists x :: x in s
  {
    if forall x :: x !in s {
      assert s == {};
    }
  }

  /** The smallest plane of a non-empty set of planes (`TreeMap.firstKey`). */
  ghost function Least(s: set<int>): (k: int)
    requires s != {}
    ensures k in s
    ensures forall j :: j in s ==> k <= j
  {
    HasMember(s);
    var x :| x in s;
    if s == {x} then x
    else
      var y := Least(s - {x});
      assert forall j :: j in s ==> j == x || j in s - {x};
      if x <= y then x else y
  }

  /** The callbacks `render()` invokes, in order: the lowest plane's list
      first, each list front to back. */
  ghost function Flush(m: Planes): seq<Renderer>
    decreases m.Keys
  {
    if m.Keys == {} then []
    else
      var z := Least(m.Keys);
      m[z] + Flush(m - {z})
  }

  /** The planes strictly below `z`. */
  function Below(m: Planes, z: int): Planes
  {
    map k | k in m && k < z :: m[k]
  }

  /** The planes at or above `z`. */
  function From(m: Planes, z: int): Planes
  {
    map k | k in m && z <= k :: m[k]
  }

  /** The planes strictly above `z`. */
  function Above(m: Planes, z: int): Planes
  {
    map k | k in m && z < k :: m[k]
  }

  /** The planes strictly between `p` and `q`. */
  function Between(m: Planes, p: int, q: int): Planes
  {
    map k | k in m && p < k < q :: m[k]
  }

  /** Draining starts with the lowest plane's whole list. */
  lemma FlushFirst(m: Planes, z: int)
    requires z in m
    requires forall k :: k in m ==> z <= k
    ensures Flush(m) == m[z] + Flush(m - {z})
  {
    assert Least(m.Keys) == z;
  }

  /** Every callback on a plane below `z` is invoked before any callback on
      a plane at or above `z`. */
  lemma {:induction false} FlushSplit(m: Planes, z: int)
    ensures Flush(m) == Flush(Below(m, z)) + Flush(From(m, z))
    decreases m.Keys
  {
    if m.Keys == {} {
      assert Below(m, z) == map[];
      assert From(m, z) == map[];
    } else {
      var k := Least(m.Keys);
      if z <= k {
        assert Below(m, z) == map[];
        assert From(m, z) == m;
      } else {
        var rest := m - {k};
        FlushSplit(rest, z);
        assert From(rest, z) == From(m, z);
        assert Below(rest, z) == Below(m, z) - {k};
        FlushFirst(Below(m, z), k);
      }
    }
  }

  /** Around any plane `z`: the lower planes, then `z`'s own list in FIFO
      order, then the higher planes. */
  lemma FlushAround(m: Planes, z: int)
    ensures Flush(m) == Flush(Below(m, z)) + Plane(m, z) + Flush(Above(m, z))
  {
    FlushSplit(m, z);
    var upper := From(m, z);
    var lo := Flush(Below(m, z));
    if z in m {
      FlushFirst(upper, z);
      assert upper - {z} == Above(m, z) by {
        assert forall k :: k in upper - {z} <==> k in Above(m, z);
      }
      assert upper[z] == Plane(m, z);
      AppendAssoc(lo, Plane(m, z), Flush(Above(m, z)));
    } else {
      assert upper == Above(m, z) by {
        assert forall k :: k in upper <==> k in Above(m, z);
      }
      assert Plane(m, z) == [];
      assert lo + [] == lo;
    }
  }

  /** For planes `p < q`: all of `p`'s callbacks run, in FIFO order, before
      any of `q`'s, with only the planes strictly between them in between. */
  lemma FlushOrdered(m: Planes, p: int, q: int)
    requires p < q
    ensures Flush(m) == Flush(Below(m, p)) + Plane(m, p) + Flush(Between(m, p, q))
                        + Plane(m, q) + Flush(Above(m, q))
  {
    FlushAround(m, q);
    var lower := Below(m, q);
    FlushAround(lower, p);
    assert Below(lower, p) == Below(m, p);
    assert Plane(lower, p) == Plane(m, p);
    assert Above(lower, p) == Between(m, p, q);
  }

  /** Where a `put(z, r)` lands in the drain order: after every callback
      already queued on planes up to and including `z`, before every callback
      on a higher plane. */
  lemma FlushInsert(m: Planes, z: int, r: Renderer)
    ensures Flush(Insert(m, z, r))
            == Flush(Below(m, z)) + Plane(m, z) + [r] + Flush(Above(m, z))
  {
    var m' := Insert(m, z, r);
    FlushAround(m', z);
    var lo := Flush(Below(m, z));
    var hi := Flush(Above(m, z));
    assert Below(m', z) == Below(m, z) by {
      assert forall k :: k in Below(m', z) <==> k in Below(m, z);
    }
    assert Above(m', z) == Above(m, z) by {
      assert forall k :: k in Above(m', z) <==> k in Above(m, z);
    }
    assert Flush(m') == lo + (Plane(m, z) + [r]) + hi;
    AppendAssoc(lo, Plane(m, z), [r]);
  }

  /** A `put` adds exactly one invocation, of its own callback, to the drain. */
  lemma FlushInsertCount(m: Planes, z: int, r: Renderer)
    ensures multiset(Flush(Insert(m, z, r))) == multiset(Flush(m)) + multiset{r}
  {
    FlushInsert(m, z, r);
    FlushAround(m, z);
  }

  /** Draining after a series of `put`s invokes each of their callbacks
      exactly once, on top of what was already queued. */
  lemma {:induction false} FlushPutAll(m: Planes, puts: seq<DrawRequest>)
    ensures multiset(Flush(PutAll(m, puts))) == multiset(Flush(m)) + multiset(Callbacks(puts))
    ensures |Flush(PutAll(m, puts))| == |Flush(m)| + |puts|
    decreases |puts|
  {
    if puts != [] {
      var init := puts[..|puts| - 1];
      var last := puts[|puts| - 1];
      FlushPutAll(m, init);
      FlushInsertCount(PutAll(m, init), last.plane, last.renderer);
      assert Callbacks(puts) == Callbacks(init) + [last.renderer];
    }
  }

  /** From an empty container: the number of invocations equals the number
      of `put`s, and every put callback is invoked exactly once. */
  lemma FlushFresh(puts: seq<DrawRequest>)
    ensures multiset(Flush(PutAll(map[], puts))) == multiset(Callbacks(puts))
    ensures |Flush(PutAll(map[], puts))| == |puts|
  {
    FlushPutAll(map[], puts);
  }

  /** The container after put(5, a); put(-1, b); put(5, c). */
  lemma ExampleBatch(a: Renderer, b: Renderer, c: Renderer)
    ensures PutAll(map[], [DrawRequest(5, a), DrawRequest(-1, b), DrawRequest(5, c)])
            == map[5 := [a, c], -1 := [b]]
  {
    var p1 := [DrawRequest(5, a)];
    var p2 := p1 + [DrawRequest(-1, b)];
    var puts := p2 + [DrawRequest(5, c)];
    assert puts == [DrawRequest(5, a), DrawRequest(-1, b), DrawRequest(5, c)];
    assert p1[..0] == [] && p2[..1] == p1 && puts[..2] == p2;
    var e: Planes := map[];
    var m1 := Insert(e, 5, a);
    assert m1 == map[5 := [a]] by {
      assert Plane(e, 5) == [];
      assert [] + [a] == [a];
    }
    var m2 := Insert(m1, -1, b);
    assert m2 == map[5 := [a], -1 := [b]] by {
      assert Plane(m1, -1) == [];
      assert [] + [b] == [b];
    }
    var m := Insert(m2, 5, c);
    assert m == map[5 := [a, c], -1 := [b]] by {
      assert Plane(m2, 5) == [a];
      assert [a] + [c] == [a, c];
    }
    assert PutAll(map[], p1) == m1 by { assert PutAll(map[], p1[..0]) == e; }
    assert PutAll(map[], p2) == m2;
  }

  /** put(5, a); put(-1, b); put(5, c) drains as b, a, c: plane -1 first, then
      plane 5 in the order its callbacks were put. */
  lemma FlushExample(a: Renderer, b: Renderer, c: Renderer)
    ensures Flush(PutAll(map[], [DrawRequest(5, a), DrawRequest(-1, b), DrawRequest(5, c)]))
            == [b, a, c]
  {
    ExampleBatch(a, b, c);
    var m: Planes := map[5 := [a, c], -1 := [b]];
    FlushFirst(m, -1);
    var rest := m - {-1};
    assert rest == map[5 := [a, c]];
    FlushFirst(rest, 5);
    var none: Planes := map[];
    assert rest - {5} == none;
    assert none.Keys == {};
    assert Flush(none) == [];
    assert Flush(rest) == [a, c];
    assert Flush(m) == [b] + [a, c];
  }

  /** `RendererContainer`: the draw calls of one frame. */
  class RendererContainer {
    var renderers: Planes

    constructor ()
      ensures renderers == map[]
    {
      renderers := map[];
    }

    /** `put(z, renderer)`: queue `renderer` at the end of plane `z`. */
    method Put(z: int, renderer: Renderer)
      modifies this
      ensures renderers == Insert(old(renderers), z, renderer)
    {
      var l := if z in renderers then renderers[z] else [];
      renderers := renderers[z := l + [renderer]];
    }

    /** `render()`: repeatedly take the lowest plane out of the map and
        invoke its callbacks front to back; the container ends empty. */
    method Render(log: Log)
      modifies this, log
      ensures renderers == map[]
      ensures log.events == old(log.events) + Draws(Flush(old(renderers)))
    {
      ghost var done: seq<Renderer> := [];
      while |renderers| > 0
        invariant log.events == old(log.events) + Draws(done)
        invariant done + Flush(renderers) == Flush(old(renderers))
        decreases renderers.Keys
      {
        LeastExists(renderers);
        var z :| z in renderers && forall k :: k in renderers ==> z <= k;
        var tmp := renderers[z];
        FlushFirst(renderers, z);
        AppendAssoc(done, tmp, Flush(renderers - {z}));
        renderers := renderers - {z};
        InvokeAll(tmp, log);
        DrawsAppend(done, tmp);
        done := done + tmp;
      }
      assert renderers == map[] by {
        assert renderers.Keys == {};
      }
      assert done == Flush(old(renderers));
    }
  }

  lemma LeastExists(m: Planes)
    requires |m| > 0
    ensures exists z :: z in m && forall k :: k in m ==> z <= k
  {
    assert m.Keys != {};
    var z := Least(m.Keys);
    assert z in m;
  }

  /** The inner loop of `render()`: take callbacks off the front of one
      plane's list and invoke them until the list is empty. */
  method InvokeAll(list: seq<Renderer>, log: Log)
    modifies log
    ensures log.events == old(log.events) + Draws(list)
  {
    var tmp := list;
    while |tmp| > 0
      invariant log.events + Draws(tmp) == old(log.events) + Draws(list)
    {
      var head := tmp[0];
      assert Draws(tmp) == [Draw(head)] + Draws(tmp[1..]);
      log.events := log.events + [Draw(head)];
      tmp := tmp[1..];
    }
  }
}
