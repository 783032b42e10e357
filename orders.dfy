/**
 * The Commerce entities the controller and the checkout form touch: orders
 * with their state workflow, payments stored by the callback, and the
 * entity storage holding them. Entity ids are integers; the order's state
 * moves only through a transition of its workflow.
 */
module Orders {
  import opened Wrappers
  import opened Php
  import Pay = Payments

  /** A workflow transition: its id, the states it leaves from, the state it leads to. */
  datatype Transition = Transition(id: string, from: set<string>, to: string)

  /** An order: id, state, its `data` map, its gateway id, its workflow's transitions, and how often it was saved. */
  datatype OrderRecord = OrderRecord(
    id: int,
    state: string,
    data: map<string, Value>,
    gatewayId: Option<string>,
    workflow: seq<Transition>,
    saves: nat)

  /** A payment entity as `Payment::create` stores it. */
  datatype StoredPayment = StoredPayment(
    state: string,
    amount: Pay.Price,
    gatewayId: string,
    orderId: int,
    remoteId: string,
    remoteState: string)

  /** The index of the first element satisfying `p`. */
  function FirstWhere<T>(s: seq<T>, p: T -> bool): (r: Option<nat>)
    ensures r.Some? ==> r.value < |s| && p(s[r.value]) && forall j :: 0 <= j < r.value ==> !p(s[j])
    ensures r.None? ==> forall j :: 0 <= j < |s| ==> !p(s[j])
  {
    if |s| == 0 then None
    else if p(s[0]) then Some(0)
    else
      match FirstWhere(s[1..], p)
      case None => None
      case Some(i) => Some(i + 1)
  }

  /** `getTransitions`: the workflow's transitions that leave from `state`, in workflow order. */
  function Available(workflow: seq<Transition>, state: string): (r: seq<Transition>)
    ensures forall t :: t in r <==> t in workflow && state in t.from
  {
    if |workflow| == 0 then []
    else
      var rest := Available(workflow[1..], state);
      assert forall t :: t in workflow <==> t == workflow[0] || t in workflow[1..];
      if state in workflow[0].from then [workflow[0]] + rest else rest
  }

  /** The order after a transition to `desired`: the first available one is applied and the order saved. */
  function Transitioned(o: OrderRecord, desired: string): OrderRecord {
    var ts := Available(o.workflow, o.state);
    match FirstWhere(ts, (t: Transition) => t.to == desired)
    case None => o
    case Some(i) => o.(state := ts[i].to, saves := o.saves + 1)
  }

  /**
   * The order reaches `desired`, and is saved once, exactly when its
   * workflow has a transition from its state to `desired`; otherwise it is
   * left as it was. Nothing but the state and the save count changes.
   */
  lemma TransitionedCases(o: OrderRecord, desired: string)
    ensures var r := Transitioned(o, desired);
      var possible := exists t :: t in o.workflow && o.state in t.from && t.to == desired;
      (possible ==> r == o.(state := desired, saves := o.saves + 1))
      && (!possible ==> r == o)
  {
    var ts := Available(o.workflow, o.state);
    var k := FirstWhere(ts, (t: Transition) => t.to == desired);
    if exists t :: t in o.workflow && o.state in t.from && t.to == desired {
      var t :| t in o.workflow && o.state in t.from && t.to == desired;
      assert t in ts;
      var j :| 0 <= j < |ts| && ts[j] == t;
      assert k.Some?;
    } else {
      forall j | 0 <= j < |ts| ensures ts[j].to != desired {
        assert ts[j] in ts;
      }
    }
  }

  /** The first available transition to `desired`, at `i`, is the one applied. */
  lemma TransitionedAt(o: OrderRecord, desired: string, ts: seq<Transition>, i: nat)
    requires ts == Available(o.workflow, o.state)
    requires i < |ts| && ts[i].to == desired && forall j :: 0 <= j < i ==> ts[j].to != desired
    ensures Transitioned(o, desired) == o.(state := desired, saves := o.saves + 1)
  {
    var k := FirstWhere(ts, (t: Transition) => t.to == desired);
    assert k.Some? && k.value == i;
  }

  /** With no available transition to `desired`, the order is left as it was. */
  lemma TransitionedNone(o: OrderRecord, desired: string, ts: seq<Transition>)
    requires ts == Available(o.workflow, o.state)
    requires forall j :: 0 <= j < |ts| ==> ts[j].to != desired
    ensures Transitioned(o, desired) == o
  {
    forall t | t in o.workflow && o.state in t.from ensures t.to != desired {
      assert t in ts;
      var j :| 0 <= j < |ts| && ts[j] == t;
    }
    TransitionedCases(o, desired);
  }

  /** The stored orders and payments, and each gateway entity's plugin configuration by id. */
  class Storage {
    var orders: seq<OrderRecord>
    var payments: seq<StoredPayment>
    const gateways: map<string, map<string, Value>>

    constructor (orders: seq<OrderRecord>, payments: seq<StoredPayment>, gateways: map<string, map<string, Value>>)
      ensures this.orders == orders && this.payments == payments && this.gateways == gateways
    {
      this.orders := orders;
      this.payments := payments;
      this.gateways := gateways;
    }
  }

  /** `load($id)` on the order storage: the order whose id reads as `id`. */
  function OrderById(orders: seq<OrderRecord>, id: string): Option<nat> {
    FirstWhere(orders, (o: OrderRecord) => IntToStr(o.id) == id)
  }

  /** The order with the given id is found when one is stored, and only that one. */
  lemma OrderByIdCases(orders: seq<OrderRecord>, id: string)
    ensures var r := OrderById(orders, id);
      (r.Some? <==> exists i :: 0 <= i < |orders| && IntToStr(orders[i].id) == id)
      && (r.Some? ==> r.value < |orders| && IntToStr(orders[r.value].id) == id)
  {
    var r := OrderById(orders, id);
    if r.None? {
      assert forall i :: 0 <= i < |orders| ==> IntToStr(orders[i].id) != id;
    }
  }
}
