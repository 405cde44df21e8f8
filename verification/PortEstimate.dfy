/** `estimateMessageSize`: what a message costs the window when its codec cannot say. */
module PortEstimate {
  import opened Basics
  import opened Values

  /** The size found and the budget left, which also falls below zero. */
  datatype Walked = Walked(size: nat, budget: int)

  function Walk(v: Value, depth: nat, budget: int): Walked
    decreases v, 0
  {
    var left := budget - 1;
    if budget <= 0 then Walked(0, left)
    else match v
      case Text(s) => Walked(|s|, left)
      case Bin(d) => Walked(|d|, left)
      case Arr(items) =>
        if depth >= 4 then Walked(8, left)
        else var w := WalkItems(items, depth + 1, left); Walked(16 + w.size, w.budget)
      case Obj(fields) =>
        if depth >= 4 then Walked(8, left)
        else var w := WalkFields(fields, depth + 1, left); Walked(16 + w.size, w.budget)
      case Date(_) => Walked(if depth >= 4 then 8 else 16, left)
      case Ext(_, data) => if depth >= 4 then Walked(8, left) else Walked(16 + WalkExt(data, left), left - 2)
      case _ => Walked(8, left)
  }

  /** An extension is an object of its `type`, a number, and its `data`, bytes. */
  function WalkExt(data: Bytes, budget: int): nat {
    4 + (if budget <= 0 then 0 else 8) + 4 + (if budget <= 1 then 0 else |data|)
  }

  function WalkItems(items: seq<Value>, depth: nat, budget: int): Walked
    decreases items, 1
  {
    if items == [] then Walked(0, budget)
    else
      var first := Walk(items[0], depth, budget);
      var rest := WalkItems(items[1..], depth, first.budget);
      Walked(first.size + rest.size, rest.budget)
  }

  function WalkFields(fields: seq<Field>, depth: nat, budget: int): Walked
    decreases fields, 1
  {
    if fields == [] then Walked(0, budget)
    else
      var first := Walk(fields[0].value, depth, budget);
      var rest := WalkFields(fields[1..], depth, first.budget);
      Walked(|fields[0].key| + first.size + rest.size, rest.budget)
  }

  function EstimateMessageSize(payload: Value): nat {
    Max(64, Walk(payload, 0, 256).size)
  }

  /** Past the limits: nothing once the budget is gone, and eight for whatever is no text and no bytes from the fifth level on. */
  lemma PastTheLimits(v: Value, depth: nat, budget: int)
    ensures budget <= 0 ==> Walk(v, depth, budget).size == 0
    ensures budget >= 1 && depth >= 4 ==> Walk(v, depth, budget).size == if v.Text? then |v.s| else if v.Bin? then |v.data| else 8
    ensures budget >= 1 && depth < 4 && v.Ext? ==>
              Walk(v, depth, budget).size == if budget == 1 then 24 else if budget == 2 then 32 else 32 + |v.data|
    ensures budget >= 1 && depth < 4 && v.Date? ==> Walk(v, depth, budget).size == 16
  {
  }

  // ----- the whole size, without depth or budget -----

  function Whole(v: Value): nat {
    match v
    case Text(s) => |s|
    case Bin(d) => |d|
    case Arr(items) => 16 + WholeItems(items)
    case Obj(fields) => 16 + WholeFields(fields)
    case Date(_) => 16
    case Ext(_, data) => 32 + |data|
    case _ => 8
  }

  function WholeItems(items: seq<Value>): nat {
    if items == [] then 0 else Whole(items[0]) + WholeItems(items[1..])
  }

  function WholeFields(fields: seq<Field>): nat {
    if fields == [] then 0 else |fields[0].key| + Whole(fields[0].value) + WholeFields(fields[1..])
  }

  function Nodes(v: Value): nat {
    match v
    case Arr(items) => 1 + NodesItems(items)
    case Obj(fields) => 1 + NodesFields(fields)
    case Ext(_, _) => 3
    case _ => 1
  }

  function NodesItems(items: seq<Value>): nat {
    if items == [] then 0 else Nodes(items[0]) + NodesItems(items[1..])
  }

  function NodesFields(fields: seq<Field>): nat {
    if fields == [] then 0 else Nodes(fields[0].value) + NodesFields(fields[1..])
  }

  /** Levels of containers. */
  function Height(v: Value): nat {
    match v
    case Arr(items) => 1 + HeightItems(items)
    case Obj(fields) => 1 + HeightFields(fields)
    case Date(_) => 1
    case Ext(_, _) => 1
    case _ => 0
  }

  function HeightItems(items: seq<Value>): nat {
    if items == [] then 0 else Max(Height(items[0]), HeightItems(items[1..]))
  }

  function HeightFields(fields: seq<Field>): nat {
    if fields == [] then 0 else Max(Height(fields[0].value), HeightFields(fields[1..]))
  }

  /** The walk counts a value whole unless the depth or the budget cuts it short. */
  lemma {:induction false} WalkIsWhole(v: Value, depth: nat, budget: int)
    requires Nodes(v) <= budget && depth + Height(v) <= 4
    ensures Walk(v, depth, budget) == Walked(Whole(v), budget - Nodes(v))
    decreases v, 0
  {
    match v
    case Arr(items) => WalkItemsIsWhole(items, depth + 1, budget - 1);
    case Obj(fields) => WalkFieldsIsWhole(fields, depth + 1, budget - 1);
    case _ =>
  }

  lemma {:induction false} WalkItemsIsWhole(items: seq<Value>, depth: nat, budget: int)
    requires NodesItems(items) <= budget && depth + HeightItems(items) <= 4
    ensures WalkItems(items, depth, budget) == Walked(WholeItems(items), budget - NodesItems(items))
    decreases items, 1
  {
    if items != [] {
      WalkIsWhole(items[0], depth, budget);
      WalkItemsIsWhole(items[1..], depth, budget - Nodes(items[0]));
    }
  }

  lemma {:induction false} WalkFieldsIsWhole(fields: seq<Field>, depth: nat, budget: int)
    requires NodesFields(fields) <= budget && depth + HeightFields(fields) <= 4
    ensures WalkFields(fields, depth, budget) == Walked(WholeFields(fields), budget - NodesFields(fields))
    decreases fields, 1
  {
    if fields != [] {
      WalkIsWhole(fields[0].value, depth, budget);
      WalkFieldsIsWhole(fields[1..], depth, budget - Nodes(fields[0].value));
    }
  }

  /** Messages of at most 256 values, containers at most 4 deep, cost their whole size, or 64. */
  lemma SmallMessagesWhole(payload: Value)
    requires Nodes(payload) <= 256 && Height(payload) <= 4
    ensures EstimateMessageSize(payload) == Max(64, Whole(payload))
  {
    WalkIsWhole(payload, 0, 256);
  }
}
