/** The attribute API over the shared heap (cpp/attribute.cpp, c/attribute.cpp). Every method is
    proved to do to the variables what the operation does to plain values. */
module Attributes {
  import opened AttributeValues
  import opened CowHeap

  // ---- payload updates seen as value updates ----

  lemma {:induction false} PropertyUpdated(props: seq<Property<Attribute>>, name: string, a: Attribute,
                                           den: map<Ptr, Value>)
    ensures PropertiesOf(WithProperty(props, name, a), den)
      == WithProperty(PropertiesOf(props, den), name, ValueOf(a, den))
  {
    FindInProperties(props, name, den);
    var r, v := WithProperty(props, name, a), WithProperty(PropertiesOf(props, den), name, ValueOf(a, den));
    forall k | 0 <= k < |r|
      ensures PropertiesOf(r, den)[k] == v[k]
    {
      assert r[k] == if k == Find(props, name) then Property(name, a) else props[k];
    }
  }

  lemma {:induction false} FindInProperties(props: seq<Property<Attribute>>, name: string, den: map<Ptr, Value>)
    ensures Find(PropertiesOf(props, den), name) == Find(props, name)
  {
    if props != [] && props[0].name != name {
      FindInProperties(props[1..], name, den);
    }
  }

  lemma {:induction false} PropertyDeleted(props: seq<Property<Attribute>>, name: string, den: map<Ptr, Value>)
    ensures PropertiesOf(WithoutProperty(props, name), den) == WithoutProperty(PropertiesOf(props, den), name)
  {
    FindInProperties(props, name, den);
    PropertiesOfSlices(props, Find(props, name), WithoutProperty(props, name), PropertiesOf(props, den), den);
  }

  lemma {:induction false} PropertiesOfSlices(props: seq<Property<Attribute>>, i: nat, rest: seq<Property<Attribute>>,
                                              r: seq<Property<Value>>, den: map<Ptr, Value>)
    requires r == PropertiesOf(props, den) && i <= |props|
    requires rest == if i < |props| then props[..i] + props[i + 1..] else props
    ensures PropertiesOf(rest, den) == if i < |props| then r[..i] + r[i + 1..] else r
  {
    if i < |props| {
      forall k | 0 <= k < |rest|
        ensures PropertiesOf(rest, den)[k] == (r[..i] + r[i + 1..])[k]
      {
        assert rest[k] == props[if k < i then k else k + 1];
      }
    }
  }

  lemma {:induction false} UsesWithout(s: seq<Attribute>, i: nat, p: Ptr)
    requires i < |s|
    ensures Uses(s, p) == Uses(s[..i] + s[i + 1..], p) + Use(s[i], p)
  {
    assert s == s[..i] + ([s[i]] + s[i + 1..]);
    UsesConcatenate(s[..i], [s[i]] + s[i + 1..], p);
    UsesConcatenate([s[i]], s[i + 1..], p);
    UsesConcatenate(s[..i], s[i + 1..], p);
  }

  lemma {:induction false} UsesReplaced(s: seq<Attribute>, i: nat, a: Attribute, p: Ptr)
    requires i < |s|
    ensures Uses(s[i := a], p) + Use(s[i], p) == Uses(s, p) + Use(a, p)
  {
    UsesWithout(s, i, p);
    UsesWithout(s[i := a], i, p);
    assert s[i := a][..i] == s[..i] && s[i := a][i + 1..] == s[i + 1..];
  }

  /** The attribute that a property update displaces. */
  function Displaced(props: seq<Property<Attribute>>, name: string): Attribute {
    if Find(props, name) < |props| then props[Find(props, name)].value else Inline(Null)
  }

  lemma {:induction false} UsesOfUpdated(props: seq<Property<Attribute>>, name: string, a: Attribute, p: Ptr)
    ensures Uses(ValuesIn(WithProperty(props, name, a)), p) + Use(Displaced(props, name), p)
      == Uses(ValuesIn(props), p) + Use(a, p)
  {
    var i, s, r := Find(props, name), ValuesIn(props), ValuesIn(WithProperty(props, name, a));
    if i < |props| {
      UsesReplaced(s, i, a, p);
      assert r == s[i := a];
    } else {
      UsesConcatenate(s, [a], p);
      UsesOfOne(a, p);
      assert forall k | 0 <= k < |r| :: r[k] == (s + [a])[k];
      assert r == s + [a];
    }
  }

  lemma CutAt<T>(s: seq<T>, i: nat, k: nat)
    requires i < |s| && k < |s| - 1
    ensures (s[..i] + s[i + 1..])[k] == s[if k < i then k else k + 1]
  {
  }

  lemma {:induction false} ValuesOfCut(props: seq<Property<Attribute>>, i: nat)
    requires i < |props|
    ensures ValuesIn(props[..i] + props[i + 1..]) == ValuesIn(props)[..i] + ValuesIn(props)[i + 1..]
  {
    var s, rest := ValuesIn(props), props[..i] + props[i + 1..];
    forall k | 0 <= k < |rest|
      ensures ValuesIn(rest)[k] == (s[..i] + s[i + 1..])[k]
    {
      CutAt(props, i, k);
      CutAt(s, i, k);
    }
  }

  lemma {:induction false} UsesOfDeleted(props: seq<Property<Attribute>>, name: string, p: Ptr)
    ensures Uses(ValuesIn(WithoutProperty(props, name)), p) + Use(Displaced(props, name), p) == Uses(ValuesIn(props), p)
  {
    var i, s := Find(props, name), ValuesIn(props);
    if i < |props| {
      UsesWithout(s, i, p);
      ValuesOfCut(props, i);
    }
  }

  lemma {:induction false} PushedValue(items: seq<Attribute>, a: Attribute, den: map<Ptr, Value>)
    ensures ValuesOf(items + [a], den) == ValuesOf(items, den) + [ValueOf(a, den)]
  {
  }

  /** What a variable denotes, by the type it carries. */
  lemma Shape(h: Heap, x: Variable)
    requires Ok(h) && x in h.vars
    ensures h.vars[x].Inline? ==> Abstract(h)[x] == Plain(h.vars[x].p)
    ensures h.vars[x].Shared? ==>
      var p := h.vars[x].ptr;
      && p in h.nodes && KindOf(h.nodes[p].payload) == h.vars[x].kind
      && Abstract(h)[x] == PayloadValue(h.nodes[p].payload, h.den)
  {
    assert Typed(h.nodes, h.vars[x]);
    if h.vars[x].Shared? {
      assert DenotesAt(h.nodes, h.den, h.vars[x].ptr);
    }
  }

  lemma LastUpdateCounts(store: Store, x: Variable, v: Value, w: Value)
    ensures store[x := v][x := w] == store[x := w]
  {
  }

  lemma ArrayShape(h: Heap, x: Variable)
    requires Ok(h) && x in h.vars && h.vars[x].Shared? && h.vars[x].kind == ArrayKind
    ensures
      var p := h.vars[x].ptr;
      && p in h.nodes && h.nodes[p].payload.ArrayData? && Storable(h.nodes, h.nodes[p].payload)
      && Abstract(h)[x] == Array(ValuesOf(h.nodes[p].payload.items, h.den))
  {
    Shape(h, x);
    assert SlotsTyped(h.nodes, h.vars[x].ptr);
  }

  lemma ObjectShape(h: Heap, x: Variable)
    requires Ok(h) && x in h.vars && h.vars[x].Shared? && h.vars[x].kind == ObjectKind
    ensures
      var p := h.vars[x].ptr;
      && p in h.nodes && h.nodes[p].payload.ObjectData? && Storable(h.nodes, h.nodes[p].payload)
      && Abstract(h)[x] == Object(PropertiesOf(h.nodes[p].payload.props, h.den))
  {
    Shape(h, x);
    assert SlotsTyped(h.nodes, h.vars[x].ptr);
  }

  /** No object denoted has two properties of one name. */
  lemma NamesAreDistinct(h: Heap, x: Variable)
    requires Ok(h) && x in h.vars && Abstract(h)[x].Object?
    ensures Distinct(Abstract(h)[x].props)
  {
    Shape(h, x);
    ObjectShape(h, x);
  }

  /** Nodes are created and destroyed, but those that stay are not written to. */
  ghost predicate Unwritten(nodes: Nodes, nodes': Nodes) {
    forall p :: p in nodes && p in nodes' ==> nodes'[p].payload == nodes[p].payload
  }

  ghost predicate Shrunk(nodes: Nodes, nodes': Nodes) {
    nodes'.Keys <= nodes.Keys && |nodes'| <= |nodes| && Unwritten(nodes, nodes')
  }

  /** Temporaries hold `n` more references to `p`, and otherwise the same. */
  ghost predicate Changed(temps: multiset<Ptr>, temps': multiset<Ptr>, p: Ptr, n: int) {
    forall q :: temps'[q] == temps[q] + if q == p then n else 0
  }

  lemma FewerNodes(nodes: Nodes, p: Ptr)
    requires p in nodes
    ensures |nodes - {p}| == |nodes| - 1
  {
    assert nodes.Keys == (nodes - {p}).Keys + {p};
  }

  class AttributeHeap {
    var nodes: Nodes
    var vars: Variables
    var next: Ptr
    ghost var temps: multiset<Ptr>
    ghost var den: map<Ptr, Value>

    ghost function H(): Heap
      reads this
    {
      Heap(nodes, vars, temps, den)
    }

    ghost predicate Valid()
      reads this
    {
      Ok(H()) && forall p <- nodes :: p < next
    }

    /** The variables as plain values. */
    ghost function Values(): Store
      reads this
    {
      Abstract(H())
    }

    // ---- CowValue ----

    method AddRef(p: Ptr)
      requires Valid() && p in nodes
      modifies this
      ensures Valid() && Values() == old(Values())
      ensures nodes == old(nodes)[p := Node(old(nodes[p].refs) + 1, old(nodes[p].payload))]
      ensures vars == old(vars) && Changed(old(temps), temps, p, 1) && den == old(den)
    {
      RecountKeepsOk(H(), p, nodes[p].refs + 1, temps + multiset{p});
      nodes := nodes[p := Node(nodes[p].refs + 1, nodes[p].payload)];
      temps := temps + multiset{p};
    }

    method DropRef(p: Ptr)
      requires Valid() && temps[p] > 0 && p in nodes && nodes[p].refs > 1
      modifies this
      ensures Valid() && Values() == old(Values()) && vars == old(vars) && next == old(next)
      ensures nodes == old(nodes)[p := Node(old(nodes[p].refs) - 1, old(nodes[p].payload))]
      ensures Changed(old(temps), temps, p, -1) && den == old(den)
    {
      RecountKeepsOk(H(), p, nodes[p].refs - 1, temps - multiset{p});
      nodes := nodes[p := Node(nodes[p].refs - 1, nodes[p].payload)];
      temps := temps - multiset{p};
    }

    /** Frees a node; the attributes in it are left to be released. */
    method Free(p: Ptr) returns (slots: seq<Attribute>)
      requires Valid() && temps[p] > 0 && p in nodes && nodes[p].refs == 1
      modifies this
      ensures Valid() && Values() == old(Values()) && vars == old(vars) && next == old(next)
      ensures nodes == old(nodes) - {p} && |nodes| < |old(nodes)| && Agree(den, old(den))
      ensures forall q :: temps[q] == old(temps)[q] + Uses(slots, q) - if q == p then 1 else 0
    {
      slots := Slots(nodes[p].payload);
      ghost var more := temps - multiset{p} + PtrsOf(slots);
      DeleteKeepsOk(H(), p, more);
      FewerNodes(nodes, p);
      nodes, temps, den := nodes - {p}, more, den - {p};
      assert H() == Deleted(old(H()), p, more);
    }

    /** Gives up a temporary's reference. The last one destroys the node, which releases what it
        refers to in turn. */
    method Release(p: Ptr)
      requires Valid() && temps[p] > 0
      modifies this
      ensures Valid() && Values() == old(Values()) && vars == old(vars) && next == old(next)
      ensures p in old(nodes) && (p in nodes <==> old(nodes)[p].refs > 1)
      ensures Changed(old(temps), temps, p, -1) && Shrunk(old(nodes), nodes) && Agree(den, old(den))
      ensures old(nodes)[p].refs > 1 ==> nodes == old(nodes)[p := Node(old(nodes)[p].refs - 1, old(nodes)[p].payload)]
      decreases |nodes|, 0
    {
      assert Owners(H(), p) == CountOf(nodes, p);
      if nodes[p].refs > 1 {
        DropRef(p);
      } else {
        var slots := Free(p);
        ReleaseAll(slots);
      }
    }

    /** The destructor of a container releases its elements one by one. */
    method ReleaseAll(slots: seq<Attribute>)
      requires Valid() && forall p :: temps[p] >= Uses(slots, p)
      modifies this
      ensures Valid() && Values() == old(Values()) && vars == old(vars) && next == old(next)
      ensures forall p :: temps[p] == old(temps)[p] - Uses(slots, p)
      ensures Shrunk(old(nodes), nodes) && Agree(den, old(den))
      decreases |nodes|, 1
    {
      var i := 0;
      while i < |slots|
        invariant 0 <= i <= |slots|
        invariant Valid() && Values() == old(Values()) && vars == old(vars) && next == old(next)
        invariant forall p :: temps[p] == old(temps)[p] - Uses(slots, p) + Uses(slots[i..], p)
        invariant Shrunk(old(nodes), nodes) && Agree(den, old(den))
      {
        assert slots[i..][1..] == slots[i + 1..];
        if slots[i].Shared? {
          Release(slots[i].ptr);
        }
        i := i + 1;
      }
    }

    /** Destroys a temporary attribute. */
    method LetGo(a: Attribute)
      requires Valid() && forall q :: temps[q] >= Use(a, q)
      modifies this
      ensures Valid() && Values() == old(Values()) && vars == old(vars)
      ensures a.Inline? ==> nodes == old(nodes)
      ensures forall q :: temps[q] + Use(a, q) == old(temps)[q]
    {
      if a.Shared? {
        assert Use(a, a.ptr) == 1;
        Release(a.ptr);
      }
    }

    /** A new node with one reference, held by a temporary. */
    method Allocate(d: Payload) returns (p: Ptr)
      requires Valid() && Storable(nodes, d) && forall q :: temps[q] >= Uses(Slots(d), q)
      modifies this
      ensures Valid() && Values() == old(Values()) && vars == old(vars)
      ensures p !in old(nodes) && nodes == old(nodes)[p := Node(1, d)]
      ensures den == old(den)[p := PayloadValue(d, old(den))]
      ensures MovesInto(old(temps), d, temps, p, 1)
    {
      p := next;
      ghost var less := temps - PtrsOf(Slots(d)) + multiset{p};
      AllocateKeepsOk(H(), p, d, less);
      nodes, temps, den := nodes[p := Node(1, d)], less, den[p := PayloadValue(d, den)];
      next := next + 1;
      assert H() == Allocated(old(H()), p, d, less);
    }

    /** The copy constructor of a container adds a reference for every element. */
    method AddRefs(slots: seq<Attribute>)
      requires Valid() && forall a <- slots :: Typed(nodes, a)
      modifies this
      ensures Valid() && Values() == old(Values()) && vars == old(vars) && den == old(den)
      ensures nodes.Keys == old(nodes).Keys && Unwritten(old(nodes), nodes)
      ensures forall q <- nodes :: nodes[q].refs >= old(nodes)[q].refs
      ensures forall q :: temps[q] == old(temps)[q] + Uses(slots, q)
    {
      var i := 0;
      while i < |slots|
        invariant 0 <= i <= |slots|
        invariant Valid() && Values() == old(Values()) && vars == old(vars) && den == old(den)
        invariant nodes.Keys == old(nodes).Keys && Unwritten(old(nodes), nodes)
        invariant forall q <- nodes :: nodes[q].refs >= old(nodes)[q].refs
        invariant forall q :: temps[q] + Uses(slots[i..], q) == old(temps)[q] + Uses(slots, q)
      {
        assert slots[i..][1..] == slots[i + 1..];
        assert Typed(old(nodes), slots[i]);
        if slots[i].Shared? {
          AddRef(slots[i].ptr);
        }
        i := i + 1;
      }
    }

    /** A shallow copy, which shares the nodes it refers to. */
    method Clone(p: Ptr) returns (c: Ptr)
      requires Valid() && p in nodes
      modifies this
      ensures Valid() && Values() == old(Values()) && vars == old(vars)
      ensures c !in old(nodes) && nodes.Keys == old(nodes).Keys + {c} && Unwritten(old(nodes), nodes)
      ensures nodes[c] == Node(1, old(nodes)[p].payload)
      ensures forall q <- old(nodes) :: nodes[q].refs >= old(nodes)[q].refs
      ensures den == old(den)[c := old(den)[p]] && Changed(old(temps), temps, c, 1)
    {
      assert SlotsTyped(nodes, p) && DenotesAt(nodes, den, p);
      var d := nodes[p].payload;
      AddRefs(Slots(d));
      c := Allocate(d);
    }

    // ---- Attribute ----

    /** The variable takes over the reference of a temporary; its own goes to a temporary. */
    method Store(x: Variable, a: Attribute)
      requires Valid() && Typed(nodes, a) && forall q :: temps[q] + UsesOf(vars, x, q) >= Use(a, q)
      modifies this`vars, this`temps
      ensures Valid() && Values() == old(Values())[x := ValueOf(a, den)] && vars == old(vars)[x := a]
      ensures forall q :: temps[q] + Use(a, q) == old(temps)[q] + UsesOf(old(vars), x, q)
    {
      ghost var moved := temps + (if x in vars then PtrOf(vars[x]) else multiset{}) - PtrOf(a);
      StoreKeepsOk(H(), x, a, moved);
      vars, temps := vars[x := a], moved;
      assert H() == Stored(old(H()), x, a, moved);
    }

    /** GetCowValueForWrite: makes the variable the only owner of its node. */
    method WriteAccess(x: Variable) returns (p: Ptr)
      requires Valid() && x in vars && vars[x].Shared?
      modifies this
      ensures Valid() && Values() == old(Values())
      ensures vars == old(vars)[x := Shared(old(vars)[x].kind, p)] && Balanced(old(temps), temps)
      ensures Grown(old(nodes), nodes) && Agree(old(den), den)
      ensures CountOf(nodes, p) == 1 && nodes[p].payload == old(nodes)[old(vars)[x].ptr].payload
    {
      p := vars[x].ptr;
      assert Typed(nodes, vars[x]) && Owners(H(), p) == CountOf(nodes, p);
      if nodes[p].refs > 1 {
        p := Detach(x);
      }
    }

    method Detach(x: Variable) returns (c: Ptr)
      requires Valid() && x in vars && vars[x].Shared? && CountOf(nodes, vars[x].ptr) > 1
      modifies this
      ensures Valid() && Values() == old(Values())
      ensures vars == old(vars)[x := Shared(old(vars)[x].kind, c)] && Balanced(old(temps), temps)
      ensures Grown(old(nodes), nodes) && Agree(old(den), den)
      ensures CountOf(nodes, c) == 1 && nodes[c].payload == old(nodes)[old(vars)[x].ptr].payload
    {
      var p := vars[x].ptr;
      c := Redirect(x);
      DropRefOf(p);
    }

    /** Points the variable at a clone of its node, for which a temporary keeps the reference. */
    method Redirect(x: Variable) returns (c: Ptr)
      requires Valid() && x in vars && vars[x].Shared? && CountOf(nodes, vars[x].ptr) > 1
      modifies this
      ensures Valid() && Values() == old(Values())
      ensures vars == old(vars)[x := Shared(old(vars)[x].kind, c)]
      ensures Changed(old(temps), temps, old(vars)[x].ptr, 1) && CountOf(nodes, old(vars)[x].ptr) > 1
      ensures Grown(old(nodes), nodes) && Agree(old(den), den) && c !in old(nodes)
      ensures CountOf(nodes, c) == 1 && nodes[c].payload == old(nodes)[old(vars)[x].ptr].payload
    {
      assert Typed(nodes, vars[x]);
      c := Clone(vars[x].ptr);
      Repoint(x, c);
    }

    /** The variable refers to another node with the same value. */
    method Repoint(x: Variable, c: Ptr)
      requires Valid() && x in vars && vars[x].Shared? && temps[c] > 0
      requires Typed(nodes, Shared(vars[x].kind, c)) && den[c] == ValueOf(vars[x], den)
      modifies this`vars, this`temps
      ensures Valid() && Values() == old(Values()) && vars == old(vars)[x := Shared(old(vars)[x].kind, c)]
      ensures forall q ::
        temps[q] + (if q == c then 1 else 0) == old(temps)[q] + if q == old(vars)[x].ptr then 1 else 0
    {
      Store(x, Shared(vars[x].kind, c));
    }

    /** Release of a node that is known to have other owners. */
    method DropRefOf(p: Ptr)
      requires Valid() && temps[p] > 0 && CountOf(nodes, p) > 1
      modifies this
      ensures Valid() && Values() == old(Values()) && vars == old(vars)
      ensures nodes.Keys == old(nodes).Keys && Unwritten(old(nodes), nodes)
      ensures forall q <- nodes :: q != p ==> nodes[q] == old(nodes)[q]
      ensures Changed(old(temps), temps, p, -1) && Agree(old(den), den)
    {
      Release(p);
    }

    /** The sole owner writes to its node. */
    method Overwrite(x: Variable, p: Ptr, d: Payload)
      requires Valid() && x in vars && vars[x] == Shared(KindOf(d), p) && CountOf(nodes, p) == 1 && Storable(nodes, d)
      requires forall q :: temps[q] + Uses(Slots(nodes[p].payload), q) >= Uses(Slots(d), q)
      modifies this
      ensures Valid() && Values() == old(Values())[x := PayloadValue(d, old(den))] && vars == old(vars)
      ensures nodes == old(nodes)[p := Node(1, d)]
      ensures forall q :: temps[q] + Uses(Slots(d), q) == old(temps)[q] + Uses(Slots(old(nodes)[p].payload), q)
    {
      ghost var moved := Swapped(temps, Slots(nodes[p].payload), Slots(d));
      RewriteKeepsOk(H(), x, d, moved);
      ghost var h := Rewritten(H(), p, d, moved);
      nodes, temps, den := nodes[p := Node(1, d)], moved, h.den;
    }

    /** Writes new contents without references to a node that is already of the right type. */
    method SetInPlace(x: Variable, d: Payload)
      requires Valid() && x in vars && vars[x].Shared? && vars[x].kind == KindOf(d) && Slots(d) == []
      modifies this
      ensures Valid() && Values() == old(Values())[x := PayloadValue(d, map[])] && Balanced(old(temps), temps)
    {
      var p := WriteAccess(x);
      var slots := Slots(nodes[p].payload);
      SameValue(d, den, map[]);
      Overwrite(x, p, d);
      ReleaseAll(slots);
    }

    /** Releases what the variable refers to, if it does. */
    method DropValue(x: Variable)
      requires Valid() && x in vars
      modifies this
      ensures Valid() && Values() == old(Values())[x := Plain(Null)] && vars == old(vars)[x := Inline(Null)]
      ensures old(vars)[x].Inline? ==> nodes == old(nodes)
      ensures Balanced(old(temps), temps)
    {
      var a := vars[x];
      Store(x, Inline(Null));
      LetGo(a);
    }

    /** Gives the variable a node of its own. */
    method SetFresh(x: Variable, d: Payload)
      requires Valid() && x in vars && Slots(d) == []
      modifies this
      ensures Valid() && Values() == old(Values())[x := PayloadValue(d, map[])] && Balanced(old(temps), temps)
    {
      DropValue(x);
      SetNew(x, d);
      LastUpdateCounts(old(Values()), x, Plain(Null), PayloadValue(d, map[]));
    }

    method SetNew(x: Variable, d: Payload)
      requires Valid() && x in vars && vars[x].Inline? && Slots(d) == []
      modifies this
      ensures Valid() && Values() == old(Values())[x := PayloadValue(d, map[])] && Balanced(old(temps), temps)
    {
      SameValue(d, den, map[]);
      var p := Allocate(d);
      Store(x, Shared(KindOf(d), p));
    }

    /** The item is kept alive by something other than `x` itself. */
    ghost predicate HeldElsewhere(x: Variable, item: Attribute)
      reads this
    {
      item.Shared? ==> temps[item.ptr] > 0 || exists y :: y in vars && y != x && vars[y] == item
    }

    /** After write access the item is not in the node written to. */
    method WriteAccessBeside(x: Variable, item: Attribute) returns (p: Ptr)
      requires Valid() && x in vars && vars[x].Shared? && Typed(nodes, item) && HeldElsewhere(x, item)
      modifies this
      ensures Valid() && Values() == old(Values())
      ensures vars == old(vars)[x := Shared(old(vars)[x].kind, p)] && Balanced(old(temps), temps)
      ensures CountOf(nodes, p) == 1 && Typed(nodes, item) && Use(item, p) == 0
      ensures ValueOf(item, den) == ValueOf(item, old(den))
    {
      p := WriteAccess(x);
      SoleOwner(H(), x);
      if item.Shared? && temps[item.ptr] == 0 {
        ghost var y :| y in old(vars) && y != x && old(vars)[y] == item;
        assert vars[y] == item;
      }
    }

    /** A temporary copy of an attribute. */
    method Hold(a: Attribute)
      requires Valid() && Typed(nodes, a)
      modifies this
      ensures Valid() && Values() == old(Values()) && vars == old(vars) && den == old(den)
      ensures nodes.Keys == old(nodes).Keys && Unwritten(old(nodes), nodes)
      ensures forall q <- nodes :: Use(a, q) == 0 ==> nodes[q] == old(nodes)[q]
      ensures forall q :: temps[q] == old(temps)[q] + Use(a, q)
    {
      if a.Shared? {
        AddRef(a.ptr);
      }
    }

    /** Puts a held item at the end of the array behind `x`. */
    method Append(x: Variable, p: Ptr, item: Attribute)
      requires Valid() && x in vars && vars[x] == Shared(ArrayKind, p) && CountOf(nodes, p) == 1
      requires Typed(nodes, item) && forall q :: temps[q] >= Use(item, q)
      modifies this
      ensures Valid() && forall q :: temps[q] + Use(item, q) == old(temps)[q]
      ensures x in old(Values()) && old(Values())[x].Array?
      ensures Values() == old(Values())[x := Array(old(Values())[x].items + [ValueOf(item, old(den))])]
    {
      ArrayShape(H(), x);
      var items := nodes[p].payload.items;
      UsesOfPushed(items, item);
      PushedValue(items, item, den);
      Overwrite(x, p, ArrayData(items + [item]));
    }

    /** Push on the node behind `x`. */
    method PushItem(x: Variable, item: Attribute)
      requires Valid() && x in vars && vars[x].Shared? && vars[x].kind == ArrayKind
      requires Typed(nodes, item) && HeldElsewhere(x, item)
      modifies this
      ensures Valid() && Balanced(old(temps), temps)
      ensures x in old(Values()) && old(Values())[x].Array?
      ensures Values() == old(Values())[x := Array(old(Values())[x].items + [ValueOf(item, old(den))])]
    {
      var p := WriteAccessBeside(x, item);
      Hold(item);
      Append(x, p, item);
    }

    /** Replaces the properties of the object behind `x`: `held` enters, `gone` leaves. */
    method ReplaceProperties(x: Variable, p: Ptr, props: seq<Property<Attribute>>, held: Attribute, gone: Attribute)
      requires Valid() && x in vars && vars[x] == Shared(ObjectKind, p) && CountOf(nodes, p) == 1
      requires Storable(nodes, ObjectData(props)) && forall q :: temps[q] >= Use(held, q)
      requires forall q :: Uses(ValuesIn(props), q) + Use(gone, q) == Uses(Slots(nodes[p].payload), q) + Use(held, q)
      modifies this
      ensures Valid() && forall q :: temps[q] + Use(held, q) == old(temps)[q]
      ensures Values() == old(Values())[x := Object(PropertiesOf(props, old(den)))]
    {
      Overwrite(x, p, ObjectData(props));
      LetGo(gone);
    }

    /** SetProperty on the node behind `x`. */
    method PutProperty(x: Variable, name: string, item: Attribute)
      requires Valid() && x in vars && vars[x].Shared? && vars[x].kind == ObjectKind
      requires Typed(nodes, item) && HeldElsewhere(x, item)
      modifies this
      ensures Valid() && Balanced(old(temps), temps)
      ensures x in old(Values()) && old(Values())[x].Object?
      ensures Values() ==
        old(Values())[x := Object(WithProperty(old(Values())[x].props, name, ValueOf(item, old(den))))]
    {
      var p := WriteAccessBeside(x, item);
      Hold(item);
      PutHeld(x, p, name, item);
    }

    method PutHeld(x: Variable, p: Ptr, name: string, item: Attribute)
      requires Valid() && x in vars && vars[x] == Shared(ObjectKind, p) && CountOf(nodes, p) == 1
      requires Typed(nodes, item) && forall q :: temps[q] >= Use(item, q)
      modifies this
      ensures Valid() && forall q :: temps[q] + Use(item, q) == old(temps)[q]
      ensures x in old(Values()) && old(Values())[x].Object?
      ensures Values() ==
        old(Values())[x := Object(WithProperty(old(Values())[x].props, name, ValueOf(item, old(den))))]
    {
      ObjectShape(H(), x);
      var props := nodes[p].payload.props;
      StorableWith(nodes, props, name, item);
      UsesOfAllUpdated(props, name, item);
      PropertyUpdated(props, name, item, den);
      ReplaceProperties(x, p, WithProperty(props, name, item), item, Displaced(props, name));
    }

    /** DeleteProperty on the node behind `x`. */
    method DropProperty(x: Variable, name: string)
      requires Valid() && x in vars && vars[x].Shared? && vars[x].kind == ObjectKind
      modifies this
      ensures Valid() && Balanced(old(temps), temps)
      ensures x in old(Values()) && old(Values())[x].Object?
      ensures Values() == old(Values())[x := Object(WithoutProperty(old(Values())[x].props, name))]
    {
      var p := WriteAccess(x);
      DropIn(x, p, name);
    }

    /** In a node of which `x` is the only owner. */
    method DropIn(x: Variable, p: Ptr, name: string)
      requires Valid() && x in vars && vars[x] == Shared(ObjectKind, p) && CountOf(nodes, p) == 1
      modifies this
      ensures Valid() && Balanced(old(temps), temps)
      ensures x in old(Values()) && old(Values())[x].Object?
      ensures Values() == old(Values())[x := Object(WithoutProperty(old(Values())[x].props, name))]
    {
      ObjectShape(H(), x);
      var props := nodes[p].payload.props;
      StorableWithout(nodes, props, name);
      UsesOfAllDeleted(props, name);
      PropertyDeleted(props, name, den);
      ReplaceProperties(x, p, WithoutProperty(props, name), Inline(Null), Displaced(props, name));
    }

    // ---- the public interface ----

    /** Between calls nothing but variables and nodes refers to nodes. */
    ghost predicate Ready()
      reads this
    {
      Valid() && forall q :: temps[q] == 0
    }

    ghost predicate CanDo(op: Op)
      reads this
    {
      Ready() && Applicable(Values(), op)
    }

    method DoCreate(x: Variable, v: Primitive)
      requires CanDo(Create(x, v))
      modifies this
      ensures Ready() && Values() == Eval(old(Values()), Create(x, v))
    {
      Store(x, Inline(v));
    }

    /** Lets a variable that holds nothing share what `y` holds. */
    method Share(x: Variable, y: Variable)
      requires Ready() && y in vars && (x in vars ==> vars[x].Inline?)
      modifies this
      ensures Ready() && Values() == old(Values())[x := old(Values())[y]]
    {
      assert Typed(nodes, vars[y]);
      Hold(vars[y]);
      Store(x, vars[y]);
    }

    method DoCopyTo(x: Variable, y: Variable)
      requires CanDo(CopyTo(x, y))
      modifies this
      ensures Ready() && Values() == Eval(old(Values()), CopyTo(x, y))
    {
      Share(x, y);
    }

    /** Moves what `y` holds to a variable that holds nothing. */
    method Transfer(x: Variable, y: Variable)
      requires Ready() && y in vars && x != y && (x in vars ==> vars[x].Inline?)
      modifies this
      ensures Ready() && Values() == old(Values())[y := Plain(Null)][x := old(Values())[y]]
    {
      var a := vars[y];
      assert Typed(nodes, a);
      Store(y, Inline(Null));
      Store(x, a);
    }

    method DoMoveTo(x: Variable, y: Variable)
      requires CanDo(MoveTo(x, y))
      modifies this
      ensures Ready() && Values() == Eval(old(Values()), MoveTo(x, y))
    {
      Transfer(x, y);
    }

    /** The variable goes, its reference stays with a temporary. */
    method Forget(x: Variable)
      requires Ready() && x in vars
      modifies this
      ensures Valid() && Values() == old(Values()) - {x} && vars == old(vars) - {x}
      ensures forall q :: temps[q] == Use(old(vars)[x], q)
    {
      ghost var more := PtrOf(vars[x]);
      RemoveKeepsOk(H(), x, more);
      vars, temps := vars - {x}, more;
    }

    method DoDestroy(x: Variable)
      requires CanDo(Destroy(x))
      modifies this
      ensures Ready() && Values() == Eval(old(Values()), Destroy(x))
    {
      var a := vars[x];
      Forget(x);
      LetGo(a);
    }

    method DoAssign(x: Variable, y: Variable)
      requires CanDo(Assign(x, y))
      modifies this
      ensures Ready() && Values() == Eval(old(Values()), Assign(x, y))
    {
      if x == y {
        assert old(Values())[x := old(Values())[x]] == old(Values());
        return;
      }
      DropValue(x);
      assert Values()[y] == old(Values())[y];
      Share(x, y);
      LastUpdateCounts(old(Values()), x, Plain(Null), old(Values())[y]);
    }

    method DoMoveAssign(x: Variable, y: Variable)
      requires CanDo(MoveAssign(x, y))
      modifies this
      ensures Ready() && Values() == Eval(old(Values()), MoveAssign(x, y))
    {
      if x == y {
        assert old(Values())[x := old(Values())[x]] == old(Values());
        return;
      }
      DropValue(x);
      assert Values()[y] == old(Values())[y];
      Transfer(x, y);
      assert Values() == old(Values())[y := Plain(Null)][x := old(Values())[y]];
    }

    method DoSetPrimitive(x: Variable, v: Primitive)
      requires CanDo(SetPrimitive(x, v))
      modifies this
      ensures Ready() && Values() == Eval(old(Values()), SetPrimitive(x, v))
    {
      DropValue(x);
      Store(x, Inline(v));
      LastUpdateCounts(old(Values()), x, Plain(Null), Plain(v));
    }

    /** dd_attribute_free leaves a null attribute behind, so freeing twice is harmless. */
    method DoFreeC(x: Variable)
      requires CanDo(SetPrimitive(x, Null))
      modifies this
      ensures Ready() && vars == old(vars)[x := Inline(Null)] && Values() == Eval(old(Values()), SetPrimitive(x, Null))
      ensures old(vars)[x].Inline? ==> nodes == old(nodes)
    {
      DropValue(x);
    }

    /** SetUUID, SetString, InitArray and InitObject: in place if the type stays the same. */
    method SetContents(x: Variable, d: Payload)
      requires Ready() && x in vars && Slots(d) == []
      modifies this
      ensures Ready() && Values() == old(Values())[x := PayloadValue(d, map[])]
    {
      if vars[x].Shared? && vars[x].kind == KindOf(d) {
        SetInPlace(x, d);
      } else {
        SetFresh(x, d);
      }
    }

    method DoSetUuid(x: Variable, bytes: seq<nat>)
      requires CanDo(SetUuid(x, bytes))
      modifies this
      ensures Ready() && Values() == Eval(old(Values()), SetUuid(x, bytes))
    {
      SetContents(x, UuidData(bytes));
    }

    method DoSetString(x: Variable, s: string)
      requires CanDo(SetString(x, s))
      modifies this
      ensures Ready() && Values() == Eval(old(Values()), SetString(x, s))
    {
      SetContents(x, TextData(s));
    }

    method DoInitArray(x: Variable)
      requires CanDo(InitArray(x))
      modifies this
      ensures Ready() && Values() == Eval(old(Values()), InitArray(x))
    {
      SetContents(x, ArrayData([]));
    }

    method DoInitObject(x: Variable)
      requires CanDo(InitObject(x))
      modifies this
      ensures Ready() && Values() == Eval(old(Values()), InitObject(x))
    {
      SetContents(x, ObjectData([]));
    }

    predicate IsKind(x: Variable, k: Kind)
      reads this
      requires x in vars
    {
      vars[x].Shared? && vars[x].kind == k
    }

    method DoArrayClear(x: Variable)
      requires CanDo(ArrayClear(x))
      modifies this
      ensures Ready() && Values() == Eval(old(Values()), ArrayClear(x))
    {
      Shape(H(), x);
      if IsKind(x, ArrayKind) {
        SetInPlace(x, ArrayData([]));
      }
    }

    /** Pushes a temporary copy of the item. */
    method PushCopy(x: Variable, y: Variable)
      requires Ready() && x in vars && y in vars && IsKind(x, ArrayKind)
      modifies this
      ensures Ready() && x in old(Values()) && old(Values())[x].Array?
      ensures Values() == old(Values())[x := Array(old(Values())[x].items + [old(Values())[y]])]
    {
      var copy := vars[y];
      Hold(copy);
      PushItem(x, copy);
      LetGo(copy);
    }

    /** The C++ variant: only an item that is the array itself is copied first. */
    method DoArrayPush(x: Variable, y: Variable)
      requires CanDo(ArrayPush(x, y))
      modifies this
      ensures Ready() && Values() == Eval(old(Values()), ArrayPush(x, y))
    {
      Shape(H(), x);
      if IsKind(x, ArrayKind) {
        if x == y {
          PushCopy(x, y);
        } else {
          PushItem(x, vars[y]);
        }
      }
    }

    /** The C variant: every item is copied first. */
    method DoArrayPushC(x: Variable, y: Variable)
      requires CanDo(ArrayPush(x, y))
      modifies this
      ensures Ready() && Values() == Eval(old(Values()), ArrayPush(x, y))
    {
      Shape(H(), x);
      if IsKind(x, ArrayKind) {
        PushCopy(x, y);
      }
    }

    /** Inserts a temporary copy of the value. */
    method PutCopy(x: Variable, name: string, y: Variable)
      requires Ready() && x in vars && y in vars && IsKind(x, ObjectKind)
      modifies this
      ensures Ready() && x in old(Values()) && old(Values())[x].Object?
      ensures Values() == old(Values())[x := Object(WithProperty(old(Values())[x].props, name, old(Values())[y]))]
    {
      var copy := vars[y];
      Hold(copy);
      PutProperty(x, name, copy);
      LetGo(copy);
    }

    method DoSetProperty(x: Variable, name: string, y: Variable)
      requires CanDo(SetProperty(x, name, y))
      modifies this
      ensures Ready() && Values() == Eval(old(Values()), SetProperty(x, name, y))
    {
      Shape(H(), x);
      if IsKind(x, ObjectKind) {
        if x == y {
          PutCopy(x, name, y);
        } else {
          PutProperty(x, name, vars[y]);
        }
      }
    }

    method DoSetPropertyC(x: Variable, name: string, y: Variable)
      requires CanDo(SetProperty(x, name, y))
      modifies this
      ensures Ready() && Values() == Eval(old(Values()), SetProperty(x, name, y))
    {
      Shape(H(), x);
      if IsKind(x, ObjectKind) {
        PutCopy(x, name, y);
      }
    }

    method DoDeleteProperty(x: Variable, name: string)
      requires CanDo(DeleteProperty(x, name))
      modifies this
      ensures Ready() && Values() == Eval(old(Values()), DeleteProperty(x, name))
    {
      Shape(H(), x);
      if IsKind(x, ObjectKind) {
        DropProperty(x, name);
      }
    }

    /** Only a container whose capacity is too small is made private for writing. */
    method DoReserve(x: Variable, grow: bool)
      requires CanDo(Reserve(x, grow))
      modifies this
      ensures Ready() && Values() == Eval(old(Values()), Reserve(x, grow))
      ensures
        if grow && (old(IsKind(x, ArrayKind)) || old(IsKind(x, ObjectKind)))
        then x in vars && vars[x].Shared? && CountOf(nodes, vars[x].ptr) == 1
        else nodes == old(nodes) && vars == old(vars)
    {
      if grow && (IsKind(x, ArrayKind) || IsKind(x, ObjectKind)) {
        var p := WriteAccess(x);
      }
    }

    /** A copy of the attribute in a slot. */
    method TakeSlot(x: Variable, p: Ptr, index: nat)
      requires Ready() && p in nodes && x !in vars && index < |Slots(nodes[p].payload)|
      modifies this
      ensures Ready() && Values() == old(Values())[x := ValueOf(Slots(old(nodes)[p].payload)[index], old(den))]
    {
      var a := Slots(nodes[p].payload)[index];
      assert SlotsTyped(nodes, p);
      Hold(a);
      Store(x, a);
    }

    method DoGetAt(x: Variable, y: Variable, index: int)
      requires CanDo(GetAt(x, y, index))
      modifies this
      ensures Ready() && Values() == Eval(old(Values()), GetAt(x, y, index))
    {
      Shape(H(), y);
      if vars[y].Shared? && 0 <= index < |Slots(nodes[vars[y].ptr].payload)| {
        TakeSlot(x, vars[y].ptr, index);
      } else {
        Store(x, Inline(Null));
      }
    }

    method DoGetProperty(x: Variable, y: Variable, name: string)
      requires CanDo(GetProperty(x, y, name))
      modifies this
      ensures Ready() && Values() == Eval(old(Values()), GetProperty(x, y, name))
    {
      Shape(H(), y);
      if IsKind(y, ObjectKind) {
        var props := nodes[vars[y].ptr].payload.props;
        var i := Find(props, name);
        FindInProperties(props, name, den);
        if i < |props| {
          TakeSlot(x, vars[y].ptr, i);
          return;
        }
      }
      Store(x, Inline(Null));
    }

    /** The operations that are the same in both languages. */
    method ExecuteCommon(op: Op)
      requires CanDo(op) && InC(op) && !op.Destroy? && !op.ArrayPush? && !op.SetProperty?
      modifies this
      ensures Ready() && Values() == Eval(old(Values()), op)
    {
      match op {
        case Create(x, v) => DoCreate(x, v);
        case CopyTo(x, y) => DoCopyTo(x, y);
        case SetPrimitive(x, v) => DoSetPrimitive(x, v);
        case SetUuid(x, bytes) => DoSetUuid(x, bytes);
        case SetString(x, s) => DoSetString(x, s);
        case InitArray(x) => DoInitArray(x);
        case InitObject(x) => DoInitObject(x);
        case ArrayClear(x) => DoArrayClear(x);
        case DeleteProperty(x, name) => DoDeleteProperty(x, name);
        case Reserve(x, grow) => DoReserve(x, grow);
        case GetAt(x, y, index) => DoGetAt(x, y, index);
        case GetProperty(x, y, name) => DoGetProperty(x, y, name);
      }
    }

    method Execute(op: Op)
      requires CanDo(op)
      modifies this
      ensures Ready() && Values() == Eval(old(Values()), op)
    {
      match op {
        case MoveTo(x, y) => DoMoveTo(x, y);
        case Destroy(x) => DoDestroy(x);
        case Assign(x, y) => DoAssign(x, y);
        case MoveAssign(x, y) => DoMoveAssign(x, y);
        case ArrayPush(x, y) => DoArrayPush(x, y);
        case SetProperty(x, name, y) => DoSetProperty(x, name, y);
        case _ => ExecuteCommon(op);
      }
    }

    /** A variable of a C program is freed before it goes out of scope. */
    method FreeAndForget(x: Variable)
      requires CanDo(Destroy(x))
      modifies this
      ensures Ready() && Values() == Eval(old(Values()), Destroy(x))
    {
      DoFreeC(x);
      Forget(x);
    }

    method ExecuteC(op: Op)
      requires CanDo(op) && InC(op)
      modifies this
      ensures Ready() && Values() == Eval(old(Values()), op)
    {
      if op.Destroy? {
        FreeAndForget(op.x);
      } else if op.ArrayPush? {
        DoArrayPushC(op.x, op.item);
      } else if op.SetProperty? {
        DoSetPropertyC(op.x, op.name, op.item);
      } else {
        ExecuteCommon(op);
      }
    }

    /** Copy-on-write is invisible: any sequence of operations through either API leaves the
        variables with the values they would have without any sharing. */
    method Run(ops: seq<Op>, inC: bool)
      requires Ready() && AllApplicable(Values(), ops) && (inC ==> forall op <- ops :: InC(op))
      modifies this
      ensures Ready() && Values() == EvalAll(old(Values()), ops)
    {
      var i := 0;
      while i < |ops|
        invariant 0 <= i <= |ops|
        invariant Ready() && AllApplicable(Values(), ops[i..])
        invariant EvalAll(Values(), ops[i..]) == EvalAll(old(Values()), ops)
      {
        assert ops[i..][0] == ops[i] && ops[i..][1..] == ops[i + 1..];
        if inC {
          ExecuteC(ops[i]);
        } else {
          Execute(ops[i]);
        }
        i := i + 1;
      }
    }

    constructor ()
      ensures Ready() && Values() == map[] && nodes == map[]
    {
      nodes, vars, next, temps, den := map[], map[], 0, multiset{}, map[];
    }
  }

  lemma {:induction false} ValueOfMember(props: seq<Property<Attribute>>, i: nat, b: Attribute)
    requires i < |props| && props[i].value == b
    ensures b in ValuesIn(props)
  {
    assert ValuesIn(props)[i] == b;
  }

  lemma {:induction false} ValuesWith(props: seq<Property<Attribute>>, name: string, a: Attribute, b: Attribute)
    requires b in ValuesIn(WithProperty(props, name, a))
    ensures b == a || b in ValuesIn(props)
  {
    var r := WithProperty(props, name, a);
    var i: nat :| i < |r| && ValuesIn(r)[i] == b;
    if i < |props| && r[i] == props[i] {
      ValueOfMember(props, i, b);
    }
  }

  lemma UsesOfAllUpdated(props: seq<Property<Attribute>>, name: string, a: Attribute)
    ensures forall q ::
      Uses(ValuesIn(WithProperty(props, name, a)), q) + Use(Displaced(props, name), q) ==
      Uses(ValuesIn(props), q) + Use(a, q)
  {
    forall q
      ensures Uses(ValuesIn(WithProperty(props, name, a)), q) + Use(Displaced(props, name), q)
        == Uses(ValuesIn(props), q) + Use(a, q)
    {
      UsesOfUpdated(props, name, a, q);
    }
  }

  lemma StorableWith(nodes: Nodes, props: seq<Property<Attribute>>, name: string, a: Attribute)
    requires Storable(nodes, ObjectData(props)) && Typed(nodes, a)
    ensures Storable(nodes, ObjectData(WithProperty(props, name, a)))
  {
    forall b | b in ValuesIn(WithProperty(props, name, a))
      ensures b == a || b in Slots(ObjectData(props))
    {
      ValuesWith(props, name, a, b);
    }
  }

  lemma {:induction false} ValuesWithout(props: seq<Property<Attribute>>, name: string, b: Attribute)
    requires b in ValuesIn(WithoutProperty(props, name))
    ensures b in ValuesIn(props)
  {
    var i := Find(props, name);
    if i < |props| {
      ValuesOfCut(props, i);
    }
  }

  lemma UsesOfAllDeleted(props: seq<Property<Attribute>>, name: string)
    ensures forall q ::
      Uses(ValuesIn(WithoutProperty(props, name)), q) + Use(Displaced(props, name), q) == Uses(ValuesIn(props), q)
  {
    forall q
      ensures Uses(ValuesIn(WithoutProperty(props, name)), q) + Use(Displaced(props, name), q)
        == Uses(ValuesIn(props), q)
    {
      UsesOfDeleted(props, name, q);
    }
  }

  lemma StorableWithout(nodes: Nodes, props: seq<Property<Attribute>>, name: string)
    requires Storable(nodes, ObjectData(props))
    ensures Storable(nodes, ObjectData(WithoutProperty(props, name)))
  {
    forall b | b in ValuesIn(WithoutProperty(props, name))
      ensures b in Slots(ObjectData(props))
    {
      ValuesWithout(props, name, b);
    }
  }

  lemma {:induction false} UsesOfPushed(items: seq<Attribute>, item: Attribute)
    ensures forall q :: Uses(items + [item], q) == Uses(items, q) + Use(item, q)
  {
    forall q
      ensures Uses(items + [item], q) == Uses(items, q) + Use(item, q)
    {
      UsesConcatenate(items, [item], q);
      UsesOfOne(item, q);
    }
  }

  /** A reference made for a new node replaces the one to the old node. */
  /** Nodes known to both have the same value. */
  ghost predicate Agree(den: map<Ptr, Value>, den': map<Ptr, Value>) {
    forall p :: p in den ==> p in den' && den'[p] == den[p]
  }

  ghost predicate Grown(nodes: Nodes, nodes': Nodes) {
    nodes.Keys <= nodes'.Keys && Unwritten(nodes, nodes')
  }

  /** Temporaries take over the references of `s` and give up those of `t`. */
  ghost function Swapped(temps: multiset<Ptr>, s: seq<Attribute>, t: seq<Attribute>): (r: multiset<Ptr>)
    requires forall p :: temps[p] + Uses(s, p) >= Uses(t, p)
    ensures forall p :: r[p] + Uses(t, p) == temps[p] + Uses(s, p)
  {
    temps + PtrsOf(s) - PtrsOf(t)
  }

  ghost predicate Balanced(temps: multiset<Ptr>, temps': multiset<Ptr>) {
    forall q :: temps'[q] == temps[q]
  }

  ghost function PtrOf(a: Attribute): (r: multiset<Ptr>)
    ensures forall p :: r[p] == Use(a, p)
  {
    if a.Shared? then multiset{a.ptr} else multiset{}
  }

  ghost function PtrsOf(s: seq<Attribute>): (r: multiset<Ptr>)
    ensures forall p :: r[p] == Uses(s, p)
  {
    if s == [] then multiset{}
    else PtrsOf(s[1..]) + PtrOf(s[0])
  }

  /** The C and the C++ interface simulate each other: the same operations on equal variables
      leave equal variables, although only C copies every item before it writes. */
  method RunBoth(cpp: AttributeHeap, c: AttributeHeap, ops: seq<Op>)
    requires cpp != c && cpp.Ready() && c.Ready()
    requires cpp.Values() == c.Values() && AllApplicable(cpp.Values(), ops) && forall op <- ops :: InC(op)
    modifies cpp, c
    ensures cpp.Ready() && c.Ready() && cpp.Values() == c.Values() == EvalAll(old(cpp.Values()), ops)
  {
    cpp.Run(ops, false);
    c.Run(ops, true);
  }

  /** Whatever was done, when every variable has been destroyed no node is left. */
  method NothingIsLeft(heap: AttributeHeap, ops: seq<Op>, inC: bool)
    requires heap.Ready() && AllApplicable(heap.Values(), ops) && (inC ==> forall op <- ops :: InC(op))
    requires EvalAll(heap.Values(), ops) == map[]
    modifies heap
    ensures heap.nodes == map[]
  {
    heap.Run(ops, inC);
    assert forall x <- heap.vars :: x in heap.Values();
    NoVariablesNoNodes(heap.H());
  }
}
