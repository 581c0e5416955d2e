/** The VDA 5050 values every layer shares: orders, nodes, edges, actions and blocking types.

    Action ids are only ever compared for equality and order, so a natural number stands for
    the string. Sequence ids keep the 32-bit width of the source. */
module Vda {

  datatype Option<+T> = None | Some(value: T)

  type ActionId = nat

  const SEQ_MODULUS: int := 0x1_0000_0000

  type SeqId = n: int | 0 <= n < 0x1_0000_0000

  /** Unsigned 32-bit addition. */
  function Add32(a: SeqId, b: SeqId): (r: SeqId)
    ensures a + b < SEQ_MODULUS ==> r == a + b
    ensures a + b >= SEQ_MODULUS ==> r == a + b - SEQ_MODULUS
  {
    (a + b) % SEQ_MODULUS
  }

  datatype BlockingType = NONE | SOFT | HARD

  datatype Action = Action(id: ActionId, blocking: BlockingType)

  datatype Node = Node(nodeId: string, seqId: SeqId, released: bool, actions: seq<Action>)

  datatype Edge = Edge(edgeId: string, seqId: SeqId, released: bool, actions: seq<Action>)

  datatype Order = Order(orderId: string, updateId: nat, nodes: seq<Node>, edges: seq<Edge>)

  /** A group of actions that is started together, and the strongest blocking type in it. */
  datatype Group = Group(actions: seq<Action>, ceiling: BlockingType)

  /** What the interpreter hands to the scheduler: a group, or one navigation step. */
  datatype Item =
    | Actions(group: Group)
    | Step(goal: Node, via: Edge, stopHint: bool)

  function Rank(b: BlockingType): nat
  {
    match b case NONE => 0 case SOFT => 1 case HARD => 2
  }

  /** The ceiling is the blocking type of some member and no member is stronger;
      an empty group does not block. */
  ghost predicate IsCeiling(b: BlockingType, actions: seq<Action>)
  {
    && (forall a | a in actions :: Rank(a.blocking) <= Rank(b))
    && (b != NONE ==> exists a :: a in actions && a.blocking == b)
  }

  ghost predicate CeilingOk(g: Group)
  {
    IsCeiling(g.ceiling, g.actions)
  }

  /** Strictly ascending. */
  ghost predicate Strict(ids: seq<SeqId>)
  {
    forall i, j | 0 <= i < j < |ids| :: ids[i] < ids[j]
  }

  // How often an id occurs //////////////////////////////////////////////////////////////////////

  function InActions(actions: seq<Action>, id: ActionId): nat
  {
    if actions == [] then 0 else (if actions[0].id == id then 1 else 0) + InActions(actions[1..], id)
  }

  function InGroups(groups: seq<Group>, id: ActionId): nat
  {
    if groups == [] then 0 else InActions(groups[0].actions, id) + InGroups(groups[1..], id)
  }

  function InItem(item: Item, id: ActionId): nat
  {
    if item.Actions? then InActions(item.group.actions, id) else 0
  }

  function InItems(items: seq<Item>, id: ActionId): nat
  {
    if items == [] then 0 else InItem(items[0], id) + InItems(items[1..], id)
  }

  lemma AppendTail<T>(a: seq<T>, b: seq<T>)
    requires a != []
    ensures (a + b)[0] == a[0] && (a + b)[1..] == a[1..] + b
  {
  }

  lemma AppendInit<T>(a: seq<T>, b: seq<T>)
    requires b != []
    ensures a + b != [] && (a + b)[|a + b| - 1] == b[|b| - 1] && (a + b)[..|a + b| - 1] == a + b[..|b| - 1]
  {
  }

  lemma Associative<T>(a: seq<T>, b: seq<T>, c: seq<T>)
    ensures a + b + c == a + (b + c)
  {
  }

  lemma {:induction false} InActionsAppend(a: seq<Action>, b: seq<Action>, id: ActionId)
    ensures InActions(a + b, id) == InActions(a, id) + InActions(b, id)
  {
    if a == [] {
      assert a + b == b;
    } else {
      InActionsAppend(a[1..], b, id);
      assert (a + b)[1..] == a[1..] + b;
    }
  }

  lemma {:induction false} InGroupsAppend(a: seq<Group>, b: seq<Group>, id: ActionId)
    ensures InGroups(a + b, id) == InGroups(a, id) + InGroups(b, id)
  {
    if a == [] {
      assert a + b == b;
    } else {
      InGroupsAppend(a[1..], b, id);
      assert (a + b)[1..] == a[1..] + b;
    }
  }

  lemma {:induction false} InItemsAppend(a: seq<Item>, b: seq<Item>, id: ActionId)
    ensures InItems(a + b, id) == InItems(a, id) + InItems(b, id)
  {
    if a == [] {
      assert a + b == b;
    } else {
      InItemsAppend(a[1..], b, id);
      assert (a + b)[1..] == a[1..] + b;
    }
  }
}
