/** Reference-counted nodes shared by attributes (impl/types/attribute/cow.hpp, cow.cpp): the
    counting invariant, the value every node denotes, and the primitive changes of the heap. */
module CowHeap {
  import opened AttributeValues

  type Ptr = nat

  datatype Kind = UuidKind | TextKind | ArrayKind | ObjectKind

  /** An attribute variable: an inline primitive, or a type tag and a pointer to a node. */
  datatype Attribute = Inline(p: Primitive) | Shared(kind: Kind, ptr: Ptr)

  datatype Payload =
    | UuidData(bytes: seq<nat>)
    | TextData(s: string)
    | ArrayData(items: seq<Attribute>)
    | ObjectData(props: seq<Property<Attribute>>)

  datatype Node = Node(refs: nat, payload: Payload)

  type Nodes = map<Ptr, Node>
  type Variables = map<Variable, Attribute>

  function KindOf(d: Payload): Kind {
    match d
    case UuidData(_) => UuidKind
    case TextData(_) => TextKind
    case ArrayData(_) => ArrayKind
    case ObjectData(_) => ObjectKind
  }

  function ValuesIn<T>(props: seq<Property<T>>): (r: seq<T>)
    ensures |r| == |props| && forall i | 0 <= i < |props| :: r[i] == props[i].value
  {
    if props == [] then [] else [props[0].value] + ValuesIn(props[1..])
  }

  /** The attributes stored in a node. */
  function Slots(d: Payload): seq<Attribute> {
    match d
    case ArrayData(items) => items
    case ObjectData(props) => ValuesIn(props)
    case _ => []
  }

  // ---- who refers to a node ----

  function Use(a: Attribute, p: Ptr): nat {
    if a.Shared? && a.ptr == p then 1 else 0
  }

  function Uses(s: seq<Attribute>, p: Ptr): nat {
    if s == [] then 0 else Uses(s[1..], p) + Use(s[0], p)
  }

  lemma UsesOfOne(a: Attribute, p: Ptr)
    ensures Uses([a], p) == Use(a, p)
  {
    assert [a][1..] == [];
  }

  /** The uses of a node in several groups of attributes. */
  ghost function Total<K(!new)>(groups: map<K, seq<Attribute>>, p: Ptr): nat
    decreases |groups|
  {
    if groups == map[] then 0
    else
      var k :| k in groups;
      Uses(groups[k], p) + Total(groups - {k}, p)
  }

  lemma {:induction false} TotalRemoves<K(!new)>(groups: map<K, seq<Attribute>>, k: K, p: Ptr)
    requires k in groups
    ensures Total(groups, p) == Uses(groups[k], p) + Total(groups - {k}, p)
    decreases |groups|
  {
    var l :| l in groups && Total(groups, p) == Uses(groups[l], p) + Total(groups - {l}, p);
    if l != k {
      TotalRemoves(groups - {l}, k, p);
      TotalRemoves(groups - {k}, l, p);
      assert groups - {l} - {k} == groups - {k} - {l};
    }
  }

  lemma TotalUpdates<K(!new)>(groups: map<K, seq<Attribute>>, k: K, s: seq<Attribute>, p: Ptr)
    ensures Total(groups[k := s], p) == Total(groups - {k}, p) + Uses(s, p)
  {
    TotalRemoves(groups[k := s], k, p);
    assert groups[k := s] - {k} == groups - {k};
  }

  ghost function OfVariables(vars: Variables): map<Variable, seq<Attribute>> {
    map x | x in vars :: [vars[x]]
  }

  ghost function OfNodes(nodes: Nodes): map<Ptr, seq<Attribute>> {
    map p | p in nodes :: Slots(nodes[p].payload)
  }

  /** The heap, with references held by temporaries and with the value of every node. */
  datatype Heap = Heap(nodes: Nodes, vars: Variables, temps: multiset<Ptr>, den: map<Ptr, Value>)

  /** The variables, slots and temporaries that refer to a node. */
  ghost function Owners(h: Heap, p: Ptr): nat {
    Total(OfVariables(h.vars), p) + Total(OfNodes(h.nodes), p) + h.temps[p]
  }

  function CountOf(nodes: Nodes, p: Ptr): nat {
    if p in nodes then nodes[p].refs else 0
  }

  /** Reference counts are exact, positive, and nothing refers to a node that is gone. */
  ghost predicate Counted(h: Heap) {
    && (forall p :: Owners(h, p) == CountOf(h.nodes, p))
    && (forall p <- h.nodes :: h.nodes[p].refs > 0)
  }

  // ---- what a node denotes ----

  function ValueOf(a: Attribute, den: map<Ptr, Value>): Value {
    match a
    case Inline(p) => Plain(p)
    case Shared(_, p) => if p in den then den[p] else Plain(Null)
  }

  function ValuesOf(s: seq<Attribute>, den: map<Ptr, Value>): (r: seq<Value>)
    ensures |r| == |s| && forall i | 0 <= i < |s| :: r[i] == ValueOf(s[i], den)
  {
    if s == [] then [] else [ValueOf(s[0], den)] + ValuesOf(s[1..], den)
  }

  function PropertiesOf(props: seq<Property<Attribute>>, den: map<Ptr, Value>): (r: seq<Property<Value>>)
    ensures |r| == |props|
    ensures forall i | 0 <= i < |props| :: r[i] == Property(props[i].name, ValueOf(props[i].value, den))
  {
    if props == [] then []
    else [Property(props[0].name, ValueOf(props[0].value, den))] + PropertiesOf(props[1..], den)
  }

  function PayloadValue(d: Payload, den: map<Ptr, Value>): Value {
    match d
    case UuidData(b) => Uuid(b)
    case TextData(s) => Text(s)
    case ArrayData(items) => Array(ValuesOf(items, den))
    case ObjectData(props) => Object(PropertiesOf(props, den))
  }

  /** Every node has a value made of the values of its children. Values are finite, so no node
      can contain itself, however indirectly. */
  ghost predicate Denotes(nodes: Nodes, den: map<Ptr, Value>) {
    den.Keys == nodes.Keys && forall p {:trigger DenotesAt(nodes, den, p)} :: p in nodes ==> DenotesAt(nodes, den, p)
  }

  ghost predicate DenotesAt(nodes: Nodes, den: map<Ptr, Value>, p: Ptr) {
    p in nodes && p in den && den[p] == PayloadValue(nodes[p].payload, den)
  }

  predicate Typed(nodes: Nodes, a: Attribute) {
    a.Shared? ==> a.ptr in nodes && KindOf(nodes[a.ptr].payload) == a.kind
  }

  ghost predicate WellTyped(h: Heap) {
    && (forall x <- h.vars :: Typed(h.nodes, h.vars[x]))
    && (forall p {:trigger SlotsTyped(h.nodes, p)} :: p in h.nodes ==> SlotsTyped(h.nodes, p))
  }

  ghost predicate SlotsTyped(nodes: Nodes, p: Ptr)
    requires p in nodes
  {
    && (forall a <- Slots(nodes[p].payload) :: Typed(nodes, a))
    && (nodes[p].payload.ObjectData? ==> Distinct(nodes[p].payload.props))
  }

  ghost predicate Ok(h: Heap) {
    Counted(h) && Denotes(h.nodes, h.den) && WellTyped(h)
  }

  /** The variables as plain values. */
  ghost function Abstract(h: Heap): Store {
    map x | x in h.vars :: ValueOf(h.vars[x], h.den)
  }

  // ---- who refers to what ----

  lemma {:induction false} UsesConcatenate(s: seq<Attribute>, t: seq<Attribute>, p: Ptr)
    ensures Uses(s + t, p) == Uses(s, p) + Uses(t, p)
  {
    if s == [] {
      assert s + t == t;
    } else {
      UsesConcatenate(s[1..], t, p);
      assert (s + t)[1..] == s[1..] + t;
    }
  }

  lemma {:induction false} UsedWhenPresent(s: seq<Attribute>, a: Attribute)
    requires a in s && a.Shared?
    ensures Uses(s, a.ptr) > 0
  {
    if s[0] != a {
      UsedWhenPresent(s[1..], a);
    }
  }

  lemma SlotOwns(h: Heap, q: Ptr, a: Attribute)
    requires q in h.nodes && a in Slots(h.nodes[q].payload) && a.Shared?
    ensures Total(OfNodes(h.nodes), a.ptr) > 0
  {
    UsedWhenPresent(Slots(h.nodes[q].payload), a);
    TotalRemoves(OfNodes(h.nodes), q, a.ptr);
  }

  lemma VariableOwns(h: Heap, x: Variable)
    requires x in h.vars && h.vars[x].Shared?
    ensures Total(OfVariables(h.vars), h.vars[x].ptr) > 0
  {
    TotalRemoves(OfVariables(h.vars), x, h.vars[x].ptr);
  }

  // ---- values under changes of the heap ----

  /** A payload's value depends only on the nodes it refers to. */
  lemma {:induction false} SameValue(d: Payload, den: map<Ptr, Value>, den': map<Ptr, Value>)
    requires forall a <- Slots(d) :: ValueOf(a, den) == ValueOf(a, den')
    ensures PayloadValue(d, den) == PayloadValue(d, den')
  {
    match d
    case ArrayData(items) => assert ValuesOf(items, den) == ValuesOf(items, den');
    case ObjectData(props) =>
      forall i | 0 <= i < |props|
        ensures ValueOf(props[i].value, den) == ValueOf(props[i].value, den')
      {
        assert props[i].value == ValuesIn(props)[i];
      }
      assert PropertiesOf(props, den) == PropertiesOf(props, den');
    case _ =>
  }

  // ---- primitive changes ----

  lemma SamePayloads(nodes: Nodes, nodes': Nodes)
    requires nodes.Keys == nodes'.Keys && forall p <- nodes :: nodes'[p].payload == nodes[p].payload
    ensures OfNodes(nodes') == OfNodes(nodes)
  {
  }

  ghost function Recounted(h: Heap, p: Ptr, refs: nat, temps: multiset<Ptr>): Heap
    requires p in h.nodes
  {
    h.(nodes := h.nodes[p := Node(refs, h.nodes[p].payload)], temps := temps)
  }

  lemma RecountKeepsOwners(h: Heap, p: Ptr, refs: nat, temps: multiset<Ptr>, q: Ptr)
    requires Counted(h) && p in h.nodes
    requires temps[q] == h.temps[q] + if q == p then refs - h.nodes[p].refs else 0
    ensures Owners(Recounted(h, p, refs, temps), q) == CountOf(Recounted(h, p, refs, temps).nodes, q)
  {
    SamePayloads(h.nodes, Recounted(h, p, refs, temps).nodes);
    assert Owners(h, q) == CountOf(h.nodes, q);
  }

  /** A temporary gains or loses a reference. */
  lemma {:induction false} RecountKeepsOk(h: Heap, p: Ptr, refs: nat, temps: multiset<Ptr>)
    requires Ok(h) && p in h.nodes && refs > 0
    requires forall q :: temps[q] == h.temps[q] + if q == p then refs - h.nodes[p].refs else 0
    ensures Ok(Recounted(h, p, refs, temps)) && Abstract(Recounted(h, p, refs, temps)) == Abstract(h)
  {
    var h' := Recounted(h, p, refs, temps);
    forall q | q in h'.nodes
      ensures DenotesAt(h'.nodes, h'.den, q) && SlotsTyped(h'.nodes, q)
    {
      assert DenotesAt(h.nodes, h.den, q) && SlotsTyped(h.nodes, q);
    }
    forall q
      ensures Owners(h', q) == CountOf(h'.nodes, q)
    {
      RecountKeepsOwners(h, p, refs, temps, q);
    }
  }

  /** The node is gone, and its slots have become temporaries. */
  ghost function Deleted(h: Heap, p: Ptr, temps: multiset<Ptr>): Heap {
    Heap(h.nodes - {p}, h.vars, temps, h.den - {p})
  }

  /** Nobody but a temporary refers to the node. */
  lemma LastOwnerIsTemporary(h: Heap, p: Ptr)
    requires Ok(h) && h.temps[p] > 0 && p in h.nodes && h.nodes[p].refs == 1
    ensures forall x <- h.vars :: h.vars[x].Shared? ==> h.vars[x].ptr != p
    ensures forall q <- h.nodes :: forall a <- Slots(h.nodes[q].payload) :: a.Shared? ==> a.ptr != p
    ensures Total(OfVariables(h.vars), p) == Total(OfNodes(h.nodes), p) == 0
  {
    assert Owners(h, p) == 1;
    forall x | x in h.vars && h.vars[x].Shared?
      ensures h.vars[x].ptr != p
    {
      VariableOwns(h, x);
    }
    forall q, a | q in h.nodes && a in Slots(h.nodes[q].payload) && a.Shared?
      ensures a.ptr != p
    {
      SlotOwns(h, q, a);
    }
  }

  lemma {:induction false} OwnersAfterDelete(h: Heap, p: Ptr, temps: multiset<Ptr>, q: Ptr)
    requires Ok(h) && h.temps[p] > 0 && p in h.nodes && h.nodes[p].refs == 1
    requires temps[q] == h.temps[q] + Uses(Slots(h.nodes[p].payload), q) - if q == p then 1 else 0
    ensures Owners(Deleted(h, p, temps), q) == CountOf(h.nodes - {p}, q)
  {
    assert OfNodes(h.nodes) - {p} == OfNodes(h.nodes - {p});
    TotalRemoves(OfNodes(h.nodes), p, q);
    assert Owners(h, q) == CountOf(h.nodes, q);
  }

  lemma DeleteKeepsTypes(h: Heap, p: Ptr, temps: multiset<Ptr>)
    requires Ok(h) && h.temps[p] > 0 && p in h.nodes && h.nodes[p].refs == 1
    ensures WellTyped(Deleted(h, p, temps)) && Abstract(Deleted(h, p, temps)) == Abstract(h)
  {
    var h' := Deleted(h, p, temps);
    LastOwnerIsTemporary(h, p);
    forall q | q in h'.nodes
      ensures SlotsTyped(h'.nodes, q)
    {
      assert SlotsTyped(h.nodes, q);
    }
  }

  lemma DeleteKeepsValues(h: Heap, p: Ptr, temps: multiset<Ptr>)
    requires Ok(h) && h.temps[p] > 0 && p in h.nodes && h.nodes[p].refs == 1
    ensures
      var h' := Deleted(h, p, temps);
      Denotes(h'.nodes, h'.den)
  {
    var h' := Deleted(h, p, temps);
    LastOwnerIsTemporary(h, p);
    forall q | q in h'.nodes
      ensures DenotesAt(h'.nodes, h'.den, q)
    {
      assert DenotesAt(h.nodes, h.den, q);
      SameValue(h.nodes[q].payload, h.den, h'.den);
    }
  }

  lemma DeleteKeepsOk(h: Heap, p: Ptr, temps: multiset<Ptr>)
    requires Ok(h) && h.temps[p] > 0 && p in h.nodes && h.nodes[p].refs == 1
    requires forall q :: temps[q] == h.temps[q] + Uses(Slots(h.nodes[p].payload), q) - if q == p then 1 else 0
    ensures Ok(Deleted(h, p, temps)) && Abstract(Deleted(h, p, temps)) == Abstract(h)
  {
    forall q
      ensures Owners(Deleted(h, p, temps), q) == CountOf(h.nodes - {p}, q)
    {
      OwnersAfterDelete(h, p, temps, q);
    }
    DeleteKeepsTypes(h, p, temps);
    DeleteKeepsValues(h, p, temps);
  }

  /** A new node takes over references of temporaries for its slots, and is held by a temporary. */
  ghost function Allocated(h: Heap, p: Ptr, d: Payload, temps: multiset<Ptr>): Heap {
    Heap(h.nodes[p := Node(1, d)], h.vars, temps, h.den[p := PayloadValue(d, h.den)])
  }

  /** References move from temporaries into a payload. */
  ghost predicate MovesInto(temps: multiset<Ptr>, d: Payload, temps': multiset<Ptr>, p: Ptr, n: nat) {
    forall q :: temps'[q] + Uses(Slots(d), q) == temps[q] + if q == p then n else 0
  }

  ghost predicate Storable(nodes: Nodes, d: Payload) {
    && (forall a <- Slots(d) :: Typed(nodes, a))
    && (d.ObjectData? ==> Distinct(d.props))
  }

  lemma AllocateKeepsOwners(h: Heap, p: Ptr, d: Payload, temps: multiset<Ptr>, q: Ptr)
    requires Counted(h) && p !in h.nodes && MovesInto(h.temps, d, temps, p, 1)
    ensures Owners(Allocated(h, p, d, temps), q) == CountOf(h.nodes[p := Node(1, d)], q)
  {
    assert Owners(h, q) == CountOf(h.nodes, q);
    assert OfNodes(h.nodes[p := Node(1, d)]) == OfNodes(h.nodes)[p := Slots(d)];
    TotalUpdates(OfNodes(h.nodes), p, Slots(d), q);
    assert OfNodes(h.nodes) - {p} == OfNodes(h.nodes);
  }

  lemma AllocateKeepsTypes(h: Heap, p: Ptr, d: Payload, temps: multiset<Ptr>)
    requires Ok(h) && p !in h.nodes && Storable(h.nodes, d)
    ensures WellTyped(Allocated(h, p, d, temps)) && Abstract(Allocated(h, p, d, temps)) == Abstract(h)
  {
    var h' := Allocated(h, p, d, temps);
    forall q | q in h'.nodes
      ensures SlotsTyped(h'.nodes, q)
    {
      assert q != p ==> SlotsTyped(h.nodes, q);
    }
  }

  lemma AllocateKeepsValues(h: Heap, p: Ptr, d: Payload, temps: multiset<Ptr>)
    requires Ok(h) && p !in h.nodes && Storable(h.nodes, d)
    ensures
      var h' := Allocated(h, p, d, temps);
      Denotes(h'.nodes, h'.den)
  {
    var h' := Allocated(h, p, d, temps);
    SameValue(d, h.den, h'.den);
    forall q | q in h'.nodes
      ensures DenotesAt(h'.nodes, h'.den, q)
    {
      if q != p {
        assert DenotesAt(h.nodes, h.den, q) && SlotsTyped(h.nodes, q);
        SameValue(h.nodes[q].payload, h.den, h'.den);
      }
    }
  }

  lemma AllocateKeepsOk(h: Heap, p: Ptr, d: Payload, temps: multiset<Ptr>)
    requires Ok(h) && p !in h.nodes && Storable(h.nodes, d) && MovesInto(h.temps, d, temps, p, 1)
    ensures Ok(Allocated(h, p, d, temps)) && Abstract(Allocated(h, p, d, temps)) == Abstract(h)
  {
    forall q
      ensures Owners(Allocated(h, p, d, temps), q) == CountOf(h.nodes[p := Node(1, d)], q)
    {
      AllocateKeepsOwners(h, p, d, temps, q);
    }
    AllocateKeepsTypes(h, p, d, temps);
    AllocateKeepsValues(h, p, d, temps);
  }

  /** A variable takes over a temporary's reference and gives up its own to a temporary. */
  ghost function Stored(h: Heap, x: Variable, a: Attribute, temps: multiset<Ptr>): Heap {
    h.(vars := h.vars[x := a], temps := temps)
  }

  function UsesOf(vars: Variables, x: Variable, p: Ptr): nat {
    if x in vars then Use(vars[x], p) else 0
  }

  lemma StoreKeepsOwners(h: Heap, x: Variable, a: Attribute, temps: multiset<Ptr>, q: Ptr)
    requires Counted(h) && temps[q] + Use(a, q) == h.temps[q] + UsesOf(h.vars, x, q)
    ensures Owners(Stored(h, x, a, temps), q) == CountOf(h.nodes, q)
  {
    assert Owners(h, q) == CountOf(h.nodes, q);
    assert OfVariables(h.vars[x := a]) == OfVariables(h.vars)[x := [a]];
    TotalUpdates(OfVariables(h.vars), x, [a], q);
    VariableGroupRemoved(h.vars, x, q);
  }

  lemma {:induction false} StoreKeepsOk(h: Heap, x: Variable, a: Attribute, temps: multiset<Ptr>)
    requires Ok(h) && Typed(h.nodes, a)
    requires forall q :: temps[q] + Use(a, q) == h.temps[q] + UsesOf(h.vars, x, q)
    ensures Ok(Stored(h, x, a, temps))
    ensures Abstract(Stored(h, x, a, temps)) == Abstract(h)[x := ValueOf(a, h.den)]
  {
    var h' := Stored(h, x, a, temps);
    forall q
      ensures Owners(h', q) == CountOf(h'.nodes, q)
    {
      StoreKeepsOwners(h, x, a, temps, q);
    }
  }

  lemma VariableGroupRemoved(vars: Variables, x: Variable, p: Ptr)
    ensures Total(OfVariables(vars), p) == Total(OfVariables(vars) - {x}, p) + UsesOf(vars, x, p)
    ensures OfVariables(vars - {x}) == OfVariables(vars) - {x}
  {
    if x in vars {
      TotalRemoves(OfVariables(vars), x, p);
    } else {
      assert OfVariables(vars) - {x} == OfVariables(vars);
    }
  }

  lemma RemoveKeepsOk(h: Heap, x: Variable, temps: multiset<Ptr>)
    requires Ok(h) && forall q :: temps[q] == h.temps[q] + UsesOf(h.vars, x, q)
    ensures
      var h' := h.(vars := h.vars - {x}, temps := temps);
      Ok(h') && Abstract(h') == Abstract(h) - {x}
  {
    var h' := h.(vars := h.vars - {x}, temps := temps);
    forall q
      ensures Owners(h', q) == CountOf(h'.nodes, q)
    {
      assert Owners(h, q) == CountOf(h.nodes, q);
      VariableGroupRemoved(h.vars, x, q);
    }
  }

  /** A variable that holds the only reference to its node. */
  lemma SoleOwner(h: Heap, x: Variable)
    requires Ok(h) && x in h.vars && h.vars[x].Shared? && CountOf(h.nodes, h.vars[x].ptr) == 1
    ensures
      var p := h.vars[x].ptr;
      && p in h.nodes && h.temps[p] == 0 && Total(OfNodes(h.nodes), p) == 0
      && (forall y <- h.vars :: y != x && h.vars[y].Shared? ==> h.vars[y].ptr != p)
      && (forall q <- h.nodes :: forall a <- Slots(h.nodes[q].payload) :: a.Shared? ==> a.ptr != p)
  {
    var p := h.vars[x].ptr;
    assert Owners(h, p) == 1;
    VariableGroupRemoved(h.vars, x, p);
    assert UsesOf(h.vars, x, p) == 1;
    forall y | y in h.vars && y != x && h.vars[y].Shared?
      ensures h.vars[y].ptr != p
    {
      TotalRemoves(OfVariables(h.vars - {x}), y, p);
    }
    forall q, a | q in h.nodes && a in Slots(h.nodes[q].payload) && a.Shared?
      ensures a.ptr != p
    {
      SlotOwns(h, q, a);
    }
  }

  /** The sole owner of a node writes to it. Slots that leave the node become temporaries, slots
      that enter it were temporaries. */
  ghost function Rewritten(h: Heap, p: Ptr, d: Payload, temps: multiset<Ptr>): Heap {
    Heap(h.nodes[p := Node(1, d)], h.vars, temps, h.den[p := PayloadValue(d, h.den)])
  }

  lemma {:induction false} RewriteKeepsOwners(h: Heap, p: Ptr, d: Payload, temps: multiset<Ptr>, q: Ptr)
    requires Counted(h) && CountOf(h.nodes, p) == 1
    requires temps[q] + Uses(Slots(d), q) == h.temps[q] + Uses(Slots(h.nodes[p].payload), q)
    ensures Owners(Rewritten(h, p, d, temps), q) == CountOf(h.nodes[p := Node(1, d)], q)
  {
    assert Owners(h, q) == CountOf(h.nodes, q);
    assert OfNodes(h.nodes[p := Node(1, d)]) == OfNodes(h.nodes)[p := Slots(d)];
    TotalUpdates(OfNodes(h.nodes), p, Slots(d), q);
    TotalRemoves(OfNodes(h.nodes), p, q);
  }

  lemma RewriteKeepsTypes(h: Heap, x: Variable, d: Payload, temps: multiset<Ptr>)
    requires Ok(h) && x in h.vars && h.vars[x].Shared? && CountOf(h.nodes, h.vars[x].ptr) == 1
    requires Storable(h.nodes, d) && KindOf(d) == h.vars[x].kind
    ensures WellTyped(Rewritten(h, h.vars[x].ptr, d, temps))
  {
    var p := h.vars[x].ptr;
    var h' := Rewritten(h, p, d, temps);
    assert Typed(h.nodes, h.vars[x]);
    forall q | q in h'.nodes
      ensures SlotsTyped(h'.nodes, q)
    {
      assert SlotsTyped(h.nodes, q);
    }
  }

  lemma RewriteKeepsOthers(h: Heap, x: Variable, d: Payload, temps: multiset<Ptr>)
    requires Ok(h) && x in h.vars && h.vars[x].Shared? && CountOf(h.nodes, h.vars[x].ptr) == 1
    ensures Abstract(Rewritten(h, h.vars[x].ptr, d, temps)) == Abstract(h)[x := PayloadValue(d, h.den)]
  {
    SoleOwner(h, x);
  }

  lemma RewriteKeepsValues(h: Heap, x: Variable, d: Payload, temps: multiset<Ptr>)
    requires Ok(h) && x in h.vars && h.vars[x].Shared? && CountOf(h.nodes, h.vars[x].ptr) == 1
    requires forall a <- Slots(d) :: a.Shared? ==> a.ptr != h.vars[x].ptr
    ensures
      var h' := Rewritten(h, h.vars[x].ptr, d, temps);
      Denotes(h'.nodes, h'.den)
  {
    var p := h.vars[x].ptr;
    var h' := Rewritten(h, p, d, temps);
    SoleOwner(h, x);
    forall q | q in h'.nodes
      ensures DenotesAt(h'.nodes, h'.den, q)
    {
      assert DenotesAt(h.nodes, h.den, q);
      SameValue(h'.nodes[q].payload, h.den, h'.den);
    }
  }

  lemma {:induction false} RewriteKeepsOk(h: Heap, x: Variable, d: Payload, temps: multiset<Ptr>)
    requires Ok(h) && x in h.vars && h.vars[x].Shared? && CountOf(h.nodes, h.vars[x].ptr) == 1
    requires Storable(h.nodes, d) && KindOf(d) == h.vars[x].kind
    requires forall q :: temps[q] + Uses(Slots(d), q) == h.temps[q] + Uses(Slots(h.nodes[h.vars[x].ptr].payload), q)
    ensures Ok(Rewritten(h, h.vars[x].ptr, d, temps))
    ensures Abstract(Rewritten(h, h.vars[x].ptr, d, temps)) == Abstract(h)[x := PayloadValue(d, h.den)]
  {
    var p := h.vars[x].ptr;
    SoleOwner(h, x);
    forall a | a in Slots(d) && a.Shared?
      ensures a.ptr != p
    {
      UsedWhenPresent(Slots(d), a);
      OwnSlotsOmit(h, p);
    }
    forall q
      ensures Owners(Rewritten(h, p, d, temps), q) == CountOf(h.nodes[p := Node(1, d)], q)
    {
      RewriteKeepsOwners(h, p, d, temps, q);
    }
    RewriteKeepsTypes(h, x, d, temps);
    RewriteKeepsOthers(h, x, d, temps);
    RewriteKeepsValues(h, x, d, temps);
  }

  lemma OwnSlotsOmit(h: Heap, p: Ptr)
    requires p in h.nodes && Total(OfNodes(h.nodes), p) == 0
    ensures Uses(Slots(h.nodes[p].payload), p) == 0
  {
    TotalRemoves(OfNodes(h.nodes), p, p);
  }

  // ---- consequences ----

  function Depth(v: Value): nat {
    match v
    case Array(items) => 1 + DepthOfItems(items)
    case Object(props) => 1 + DepthOfProperties(props)
    case _ => 0
  }

  function DepthOfItems(s: seq<Value>): (d: nat)
    ensures forall v <- s :: Depth(v) <= d
  {
    if s == [] then 0
    else
      var d := DepthOfItems(s[1..]);
      if Depth(s[0]) > d then Depth(s[0]) else d
  }

  function DepthOfProperties(s: seq<Property<Value>>): (d: nat)
    ensures forall p <- s :: Depth(p.value) <= d
  {
    if s == [] then 0
    else
      var d := DepthOfProperties(s[1..]);
      if Depth(s[0].value) > d then Depth(s[0].value) else d
  }

  lemma ItemIsLessDeep(items: seq<Attribute>, den: map<Ptr, Value>, a: Attribute)
    requires a in items
    ensures Depth(ValueOf(a, den)) < Depth(Array(ValuesOf(items, den)))
  {
    var i :| 0 <= i < |items| && items[i] == a;
    assert ValuesOf(items, den)[i] == ValueOf(a, den);
  }

  lemma PropertyIsLessDeep(props: seq<Property<Attribute>>, den: map<Ptr, Value>, a: Attribute)
    requires a in ValuesIn(props)
    ensures Depth(ValueOf(a, den)) < Depth(Object(PropertiesOf(props, den)))
  {
    var i :| 0 <= i < |props| && ValuesIn(props)[i] == a;
    assert PropertiesOf(props, den)[i].value == ValueOf(a, den);
  }

  /** The graph is acyclic: a child is less deep than its parent. */
  lemma ChildIsLessDeep(h: Heap, q: Ptr, a: Attribute)
    requires Ok(h) && q in h.nodes && a in Slots(h.nodes[q].payload) && a.Shared?
    ensures a.ptr in h.nodes && Depth(h.den[a.ptr]) < Depth(h.den[q])
  {
    assert DenotesAt(h.nodes, h.den, q) && SlotsTyped(h.nodes, q);
    match h.nodes[q].payload
    case ArrayData(items) => ItemIsLessDeep(items, h.den, a);
    case ObjectData(props) => PropertyIsLessDeep(props, h.den, a);
    case _ =>
  }

  /** A path from a variable down to a node, through slots. */
  ghost predicate IsPath(h: Heap, x: Variable, path: seq<Ptr>) {
    && path != [] && x in h.vars && h.vars[x].Shared? && h.vars[x].ptr == path[0]
    && (forall p <- path :: p in h.nodes)
    && forall i | 0 <= i < |path| - 1 :: IsChild(h.nodes[path[i]].payload, path[i + 1])
  }

  ghost predicate IsChild(d: Payload, p: Ptr) {
    exists a :: a in Slots(d) && a.Shared? && a.ptr == p
  }

  lemma PathExtends(h: Heap, x: Variable, path: seq<Ptr>, p: Ptr)
    requires IsPath(h, x, path) && p in h.nodes && IsChild(h.nodes[path[|path| - 1]].payload, p)
    ensures IsPath(h, x, path + [p])
  {
  }

  ghost function Deeper(h: Heap, p: Ptr): set<Ptr>
    requires p in h.den
  {
    set q | q in h.nodes && q in h.den && Depth(h.den[q]) > Depth(h.den[p])
  }

  lemma SomeOwner<K(!new)>(groups: map<K, seq<Attribute>>, p: Ptr) returns (k: K)
    requires Total(groups, p) > 0
    ensures k in groups && Uses(groups[k], p) > 0
    decreases |groups|
  {
    k :| k in groups && Total(groups, p) == Uses(groups[k], p) + Total(groups - {k}, p);
    if Uses(groups[k], p) == 0 {
      k := SomeOwner(groups - {k}, p);
    }
  }

  lemma {:induction false} SomeUse(s: seq<Attribute>, p: Ptr) returns (a: Attribute)
    requires Uses(s, p) > 0
    ensures a in s && a.Shared? && a.ptr == p
  {
    if s[0].Shared? && s[0].ptr == p {
      a := s[0];
    } else {
      a := SomeUse(s[1..], p);
    }
  }

  /** Nothing leaks: without temporaries, every node in memory can be reached from a variable. */
  lemma EveryNodeIsReachable(h: Heap, p: Ptr) returns (x: Variable, path: seq<Ptr>)
    requires Ok(h) && h.temps == multiset{} && p in h.nodes
    ensures IsPath(h, x, path) && path[|path| - 1] == p
    decreases |Deeper(h, p)|
  {
    assert Owners(h, p) == CountOf(h.nodes, p);
    if Total(OfVariables(h.vars), p) > 0 {
      x := SomeOwner(OfVariables(h.vars), p);
      var a := SomeUse([h.vars[x]], p);
      path := [p];
    } else {
      var q := SomeOwner(OfNodes(h.nodes), p);
      var a := SomeUse(Slots(h.nodes[q].payload), p);
      ChildIsLessDeep(h, q, a);
      assert Deeper(h, q) < Deeper(h, p) by {
        assert q in Deeper(h, p) && q !in Deeper(h, q);
      }
      SmallerSet(Deeper(h, q), Deeper(h, p));
      x, path := EveryNodeIsReachable(h, q);
      PathExtends(h, x, path, p);
      path := path + [p];
    }
  }

  lemma SmallerSet(a: set<Ptr>, b: set<Ptr>)
    requires a < b
    ensures |a| < |b|
  {
    assert |b| == |a| + |b - a| by {
      assert a + (b - a) == b;
    }
  }

  /** When the last variable is destroyed, all memory has been given back. */
  lemma NoVariablesNoNodes(h: Heap)
    requires Ok(h) && h.temps == multiset{} && h.vars == map[]
    ensures h.nodes == map[]
  {
    if p :| p in h.nodes {
      var x, path := EveryNodeIsReachable(h, p);
    }
  }

  ghost function Holders(vars: Variables, p: Ptr): set<Variable> {
    set x | x in vars && vars[x].Shared? && vars[x].ptr == p
  }

  lemma {:induction false} VariablesAreCounted(vars: Variables, p: Ptr)
    ensures Total(OfVariables(vars), p) == |Holders(vars, p)|
    decreases |vars|
  {
    if vars == map[] {
      assert Holders(vars, p) == {};
    } else {
      var x :| x in vars;
      VariablesAreCounted(vars - {x}, p);
      VariableGroupRemoved(vars, x, p);
      assert Holders(vars, p) - {x} == Holders(vars - {x}, p);
      assert x in Holders(vars, p) <==> Use(vars[x], p) == 1;
    }
  }

  /** A count read off a node is the number of variables and of slots of other nodes that refer
      to it. */
  lemma CountIsOwners(h: Heap, p: Ptr)
    requires Ok(h) && h.temps == multiset{} && p in h.nodes
    ensures h.nodes[p].refs ==
      |Holders(h.vars, p)| + Total(OfNodes(h.nodes), p)
    ensures Uses(Slots(h.nodes[p].payload), p) == 0
  {
    VariablesAreCounted(h.vars, p);
    assert Owners(h, p) == CountOf(h.nodes, p);
    if Uses(Slots(h.nodes[p].payload), p) > 0 {
      var a := SomeUse(Slots(h.nodes[p].payload), p);
      ChildIsLessDeep(h, p, a);
    }
  }
}
