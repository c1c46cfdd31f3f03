/** Attributes as plain values, and what the attribute operations mean for them
    (include-cpp/datadog/attribute.hpp). */
module AttributeValues {
  import opened Options

  datatype Primitive = Null | Bool(b: bool) | Int(i: int) | UInt(u: nat) | Timestamp(t: int) | Double(d: real)

  datatype Property<T> = Property(name: string, value: T)

  datatype Value =
    | Plain(p: Primitive)
    | Uuid(bytes: seq<nat>)
    | Text(s: string)
    | Array(items: seq<Value>)
    | Object(props: seq<Property<Value>>)

  // ---- property lists, of values or of anything else ----

  predicate Distinct<T>(props: seq<Property<T>>) {
    forall i, j | 0 <= i < j < |props| :: props[i].name != props[j].name
  }

  /** Position of the first property with the name, or the length if there is none. */
  function Find<T>(props: seq<Property<T>>, name: string): (i: nat)
    ensures i <= |props|
    ensures i < |props| ==> props[i].name == name
    ensures forall j | 0 <= j < i :: props[j].name != name
  {
    if props == [] || props[0].name == name then 0 else 1 + Find(props[1..], name)
  }

  function WithProperty<T>(props: seq<Property<T>>, name: string, x: T): (r: seq<Property<T>>)
    ensures Distinct(props) ==> Distinct(r)
  {
    var i := Find(props, name);
    if i < |props| then props[i := Property(name, x)] else props + [Property(name, x)]
  }

  function WithoutProperty<T>(props: seq<Property<T>>, name: string): (r: seq<Property<T>>)
    ensures Distinct(props) ==> Distinct(r)
  {
    var i := Find(props, name);
    if i < |props| then props[..i] + props[i + 1..] else props
  }

  function Lookup<T>(props: seq<Property<T>>, name: string): Option<T> {
    if Find(props, name) < |props| then Some(props[Find(props, name)].value) else None
  }

  lemma FindIsUnique<T>(props: seq<Property<T>>, name: string, i: nat)
    requires i < |props| && props[i].name == name && forall j | 0 <= j < i :: props[j].name != name
    ensures Find(props, name) == i
  {
  }

  /** Setting a property is seen under its own name only. */
  lemma LookupAfterSet<T>(props: seq<Property<T>>, name: string, x: T, other: string)
    ensures Lookup(WithProperty(props, name, x), other) == if other == name then Some(x) else Lookup(props, other)
  {
    var r, i := WithProperty(props, name, x), Find(props, name);
    if other == name {
      FindIsUnique(r, name, i);
    } else if Find(props, other) < |props| {
      FindIsUnique(r, other, Find(props, other));
    }
  }

  /** Deleting a property makes exactly that name absent, given that names are not repeated. */
  lemma LookupAfterDelete<T>(props: seq<Property<T>>, name: string, other: string)
    requires Distinct(props)
    ensures Lookup(WithoutProperty(props, name), other) == if other == name then None else Lookup(props, other)
  {
    var r, i := WithoutProperty(props, name), Find(props, name);
    if i < |props| {
      assert forall k | 0 <= k < |r| :: r[k] == if k < i then props[k] else props[k + 1];
      var j := Find(props, other);
      if other != name && j < |props| {
        FindIsUnique(r, other, if j < i then j else j - 1);
      }
    }
  }

  // ---- operations on variables holding values ----

  type Variable = nat
  type Store = map<Variable, Value>

  /** The attribute API, applied to variables. `Copy`, `Move` and the getters make new
      variables; assignments and the rest change existing ones. */
  datatype Op =
    | Create(x: Variable, v: Primitive)
    | CopyTo(x: Variable, from: Variable)
    | MoveTo(x: Variable, from: Variable)
    | Destroy(x: Variable)
    | Assign(x: Variable, from: Variable)
    | MoveAssign(x: Variable, from: Variable)
    | SetPrimitive(x: Variable, v: Primitive)
    | SetUuid(x: Variable, bytes: seq<nat>)
    | SetString(x: Variable, s: string)
    | InitArray(x: Variable)
    | InitObject(x: Variable)
    | ArrayClear(x: Variable)
    | ArrayPush(x: Variable, item: Variable)
    | SetProperty(x: Variable, name: string, item: Variable)
    | DeleteProperty(x: Variable, name: string)
    | Reserve(x: Variable, grow: bool)  // whether the capacity is too small
    | GetAt(x: Variable, from: Variable, index: int)
    | GetProperty(x: Variable, from: Variable, name: string)

  predicate MakesVariable(op: Op) {
    op.Create? || op.CopyTo? || op.MoveTo? || op.GetAt? || op.GetProperty?
  }

  /** The C interface has no assignment and no move construction. */
  predicate InC(op: Op) {
    !op.MoveTo? && !op.Assign? && !op.MoveAssign?
  }

  predicate Applicable(store: Store, op: Op) {
    && (if MakesVariable(op) then op.x !in store else op.x in store)
    && (op.CopyTo? || op.MoveTo? || op.Assign? || op.MoveAssign? || op.GetAt? || op.GetProperty? ==> op.from in store)
    && (op.ArrayPush? || op.SetProperty? ==> op.item in store)
  }

  function At(v: Value, index: int): Value {
    if v.Array? && 0 <= index < |v.items| then v.items[index]
    else if v.Object? && 0 <= index < |v.props| then v.props[index].value
    else Plain(Null)
  }

  function PropertyOf(v: Value, name: string): Value {
    if v.Object? && Find(v.props, name) < |v.props| then v.props[Find(v.props, name)].value else Plain(Null)
  }

  /** What an operation makes of the variable it is about. Operations on a value of another
      type than they are for have no effect. */
  function Result(store: Store, op: Op): Value
    requires Applicable(store, op) && !op.Destroy?
  {
    match op
    case Create(_, v) => Plain(v)
    case CopyTo(_, y) => store[y]
    case MoveTo(_, y) => store[y]
    case Assign(_, y) => store[y]
    case MoveAssign(_, y) => store[y]
    case SetPrimitive(_, v) => Plain(v)
    case SetUuid(_, b) => Uuid(b)
    case SetString(_, s) => Text(s)
    case InitArray(_) => Array([])
    case InitObject(_) => Object([])
    case ArrayClear(x) => if store[x].Array? then Array([]) else store[x]
    case ArrayPush(x, y) => if store[x].Array? then Array(store[x].items + [store[y]]) else store[x]
    case SetProperty(x, n, y) =>
      if store[x].Object? then Object(WithProperty(store[x].props, n, store[y])) else store[x]
    case DeleteProperty(x, n) =>
      if store[x].Object? then Object(WithoutProperty(store[x].props, n)) else store[x]
    case Reserve(x, _) => store[x]
    case GetAt(_, y, i) => At(store[y], i)
    case GetProperty(_, y, n) => PropertyOf(store[y], n)
  }

  /** Only the variable the operation is about changes, and one that is moved from. */
  function Eval(store: Store, op: Op): Store
    requires Applicable(store, op)
  {
    if op.Destroy? then store - {op.x}
    else if op.MoveTo? || (op.MoveAssign? && op.x != op.from) then
      store[op.from := Plain(Null)][op.x := store[op.from]]
    else store[op.x := Result(store, op)]
  }

  // ---- what the operations mean to a caller ----

  /** No other variable changes or comes or goes, except that one moved from becomes null. */
  lemma OthersStay(store: Store, op: Op)
    requires Applicable(store, op)
    ensures
      var r := Eval(store, op);
      && r.Keys == (if op.Destroy? then store.Keys - {op.x} else store.Keys + {op.x})
      && (forall y <- store :: y != op.x && !((op.MoveTo? || op.MoveAssign?) && y == op.from) ==> r[y] == store[y])
      && ((op.MoveTo? || op.MoveAssign?) && op.from != op.x ==> r[op.from] == Plain(Null))
  {
  }

  /** Setters and initializers give their value to a variable of whatever type. */
  lemma SettersSet(store: Store, op: Op)
    requires Applicable(store, op)
    ensures
      var r := Eval(store, op);
      && (op.Create? || op.SetPrimitive? ==> r[op.x] == Plain(op.v))
      && (op.SetUuid? ==> r[op.x] == Uuid(op.bytes))
      && (op.SetString? ==> r[op.x] == Text(op.s))
      && (op.InitArray? ==> r[op.x] == Array([]))
      && (op.InitObject? ==> r[op.x] == Object([]))
      && (op.CopyTo? || op.Assign? || op.MoveTo? || op.MoveAssign? ==> r[op.x] == store[op.from])
  {
  }

  /** Operations on a value of another type than they are for do nothing, and reserving never
      changes a value. */
  lemma OtherTypesAreLeftAlone(store: Store, op: Op)
    requires Applicable(store, op)
    requires
      || ((op.ArrayClear? || op.ArrayPush?) && !store[op.x].Array?)
      || ((op.SetProperty? || op.DeleteProperty?) && !store[op.x].Object?)
      || op.Reserve?
    ensures Eval(store, op) == store
  {
  }

  /** The items after a push are the old ones and, last, what the item was before; so it is also
      when an array is pushed into itself. */
  lemma PushAppends(store: Store, x: Variable, y: Variable)
    requires x in store && y in store && store[x].Array?
    ensures
      var r := Eval(store, ArrayPush(x, y));
      && r[x].Array? && |r[x].items| == |store[x].items| + 1
      && r[x].items[|store[x].items|] == store[y]
      && forall i | 0 <= i < |store[x].items| :: r[x].items[i] == store[x].items[i]
    ensures Eval(store, ArrayClear(x))[x] == Array([])
  {
  }

  /** Getting by index counts from the front, in arrays and in objects; out of range, and for
      other types, the result is null. */
  lemma GetsByIndex(store: Store, z: Variable, y: Variable, i: int)
    requires z !in store && y in store
    ensures
      var v := Eval(store, GetAt(z, y, i))[z];
      v == match store[y] {
        case Array(items) => if 0 <= i < |items| then items[i] else Plain(Null)
        case Object(props) => if 0 <= i < |props| then props[i].value else Plain(Null)
        case _ => Plain(Null)
      }
  {
  }

  /** What is pushed can be got back, and what was there before is where it was. */
  lemma GetAfterPush(store: Store, x: Variable, y: Variable, z: Variable, i: int)
    requires x in store && y in store && z !in store && store[x].Array?
    ensures Eval(Eval(store, ArrayPush(x, y)), GetAt(z, x, i))[z] ==
      if i == |store[x].items| then store[y] else Eval(store, GetAt(z, x, i))[z]
  {
  }

  /** Getting by name finds the value of a property of that name, null if there is none. */
  lemma GetsByName(store: Store, z: Variable, y: Variable, name: string)
    requires z !in store && y in store && store[y].Object? && Distinct(store[y].props)
    ensures
      var v, props := Eval(store, GetProperty(z, y, name))[z], store[y].props;
      && (forall p <- props :: p.name == name ==> v == p.value)
      && ((forall p <- props :: p.name != name) ==> v == Plain(Null))
  {
    forall i | 0 <= i < |store[y].props| && store[y].props[i].name == name
      ensures Find(store[y].props, name) == i
    {
      FindIsUnique(store[y].props, name, i);
    }
  }

  /** After setting, the object has the property with the new value and its other properties as
      before, each where it was; a new one comes last. */
  lemma SetReplacesOrAppends(store: Store, x: Variable, name: string, y: Variable)
    requires x in store && y in store && store[x].Object? && Distinct(store[x].props)
    ensures
      var old', r := store[x].props, Eval(store, SetProperty(x, name, y))[x];
      && r.Object? && Distinct(r.props)
      && |r.props| == |old'| + (if exists p :: p in old' && p.name == name then 0 else 1)
      && (forall i | 0 <= i < |old'| ::
        r.props[i] == Property(old'[i].name, if old'[i].name == name then store[y] else old'[i].value))
      && (|r.props| > |old'| ==> r.props[|old'|] == Property(name, store[y]))
  {
    forall i | 0 <= i < |store[x].props| && store[x].props[i].name == name
      ensures Find(store[x].props, name) == i
    {
      FindIsUnique(store[x].props, name, i);
    }
  }

  /** After deleting, exactly the properties of other names are left, in their order. */
  lemma DeleteRemovesOne(store: Store, x: Variable, name: string)
    requires x in store && store[x].Object? && Distinct(store[x].props)
    ensures
      var old', r := store[x].props, Eval(store, DeleteProperty(x, name))[x];
      && r.Object? && Distinct(r.props)
      && (forall p :: p in r.props <==> p in old' && p.name != name)
      && ((exists i :: 0 <= i < |old'| && old'[i].name == name && r.props == old'[..i] + old'[i + 1..])
          || (r.props == old' && forall p <- old' :: p.name != name))
  {
    var props, i := store[x].props, Find(store[x].props, name);
    if i < |props| {
      assert props == props[..i] + [props[i]] + props[i + 1..];
      assert WithoutProperty(props, name) == props[..i] + props[i + 1..];
    }
  }

  /** What the getter sees is the lookup in the object it is asked about. */
  lemma GetterLooksUp(store: Store, z: Variable, x: Variable, name: string)
    requires z !in store && x in store && store[x].Object?
    ensures Eval(store, GetProperty(z, x, name))[z] ==
      match Lookup(store[x].props, name) { case Some(v) => v case None => Plain(Null) }
  {
  }

  /** Seen through the getter: setting and deleting affect their own name only. */
  lemma GetAfterSet(store: Store, x: Variable, name: string, y: Variable, z: Variable, other: string)
    requires x in store && y in store && z !in store && store[x].Object?
    ensures Eval(Eval(store, SetProperty(x, name, y)), GetProperty(z, x, other))[z] ==
      if other == name then store[y] else Eval(store, GetProperty(z, x, other))[z]
  {
    LookupAfterSet(store[x].props, name, store[y], other);
    GetterLooksUp(store, z, x, other);
    GetterLooksUp(Eval(store, SetProperty(x, name, y)), z, x, other);
  }

  lemma GetAfterDelete(store: Store, x: Variable, name: string, z: Variable, other: string)
    requires x in store && z !in store && store[x].Object? && Distinct(store[x].props)
    ensures Eval(Eval(store, DeleteProperty(x, name)), GetProperty(z, x, other))[z] ==
      if other == name then Plain(Null) else Eval(store, GetProperty(z, x, other))[z]
  {
    LookupAfterDelete(store[x].props, name, other);
    GetterLooksUp(store, z, x, other);
    GetterLooksUp(Eval(store, DeleteProperty(x, name)), z, x, other);
  }

  predicate AllApplicable(store: Store, ops: seq<Op>)
    decreases |ops|
  {
    ops == [] || (Applicable(store, ops[0]) && AllApplicable(Eval(store, ops[0]), ops[1..]))
  }

  function EvalAll(store: Store, ops: seq<Op>): Store
    requires AllApplicable(store, ops)
    decreases |ops|
  {
    if ops == [] then store else EvalAll(Eval(store, ops[0]), ops[1..])
  }
}
