/**
 * The checkout hook of src/app/checkout/hooks/useCheckout.ts: `submitOrder`
 * snapshots the cart into an order payload, asks order creation for it and
 * empties the cart on success. The hook's state (`loading`, `successData`)
 * and the cart store it uses are the fields of `Checkout`.
 */
module Checkout {
  import opened Wrappers
  import opened Api
  import opened OrderTypes
  import opened CartStore
  import OrderValidators
  import OrderService

  /** `cart.items.map((i) => ({ id, name, qty, price }))` */
  function Snapshot(lines: seq<CartItem>): (r: seq<OrderItem>)
    ensures |r| == |lines|
    ensures forall i :: 0 <= i < |lines| ==>
      r[i] == OrderItem(lines[i].id, lines[i].name, lines[i].price, lines[i].qty)
  {
    if lines == [] then [] else [OrderItem(lines[0].id, lines[0].name, lines[0].price, lines[0].qty)] + Snapshot(lines[1..])
  }

  /** The total order creation recomputes from the snapshot is the cart's own total. */
  lemma {:induction false} SnapshotTotal(lines: seq<CartItem>)
    ensures OrderService.CalculateTotal(Snapshot(lines)) == LinesTotal(lines)
  {
    if lines != [] {
      var head := Snapshot(lines[..1]);
      assert Snapshot(lines) == head + Snapshot(lines[1..]);
      OrderService.CalculateTotalConcat(head, Snapshot(lines[1..]));
      SnapshotTotal(lines[1..]);
    }
  }

  /** The order payload: the five form fields as given, the cart lines and the cart total. */
  function Payload(form: OrderCreateInput, lines: seq<CartItem>): (p: OrderCreateInput)
    ensures p.customer_name == form.customer_name && p.phone == form.phone && p.address == form.address
    ensures p.delivery_method == form.delivery_method && p.payment_method == form.payment_method
    ensures p.items == Snapshot(lines)
    ensures p.total == OrderService.CalculateTotal(p.items)
  {
    SnapshotTotal(lines);
    OrderCreateInput(form.customer_name, form.phone, form.address, form.delivery_method, form.payment_method,
                     Snapshot(lines), LinesTotal(lines))
  }

  class Checkout {
    var cart: CartState
    var loading: bool
    var successData: Option<Order>

    /** The hook starts idle, with no order placed. */
    constructor (cart: CartState)
      ensures this.cart == cart && !loading && successData.None?
    {
      this.cart := cart;
      loading := false;
      successData := None;
    }

    /**
     * `submitOrder(form)`. `now` and `insert` stand for order creation's clock and
     * database; `sent` is the payload handed to it, `result` its answer, and
     * `loadingAtCall` the value of `loading` while the call is pending.
     */
    method SubmitOrder(form: OrderCreateInput, now: string, insert: OrderService.NewOrderRow -> SingleOutcome<Order>)
      returns (sent: Option<OrderCreateInput>, result: Option<ApiResponse<Order, map<OrderValidators.ErrorKey, string>>>, loadingAtCall: bool)
      modifies this, cart
      ensures cart == old(cart)
      ensures old(cart.items) == [] ==>
        && sent.None? && result.None?
        && cart.items == old(cart.items) && loading == old(loading) && successData == old(successData)
      ensures old(cart.items) != [] ==>
        && sent == Some(Payload(form, old(cart.items)))
        && sent.value.total == old(cart.Total())
        && result.Some? && loadingAtCall && !loading
      ensures result.Some? && result.value.IsSuccess() ==> successData == Some(result.value.data) && cart.items == []
      ensures result.Some? && !result.value.IsSuccess() ==> successData == old(successData) && cart.items == old(cart.items)
      ensures result.Some? ==>
        (result.value.IsSuccess() <==>
          OrderValidators.OrderCreateAccepted(sent.value)
          && insert(OrderService.RowToInsert(sent.value, now)).Row?)
    {
      if |cart.items| == 0 {
        return None, None, false;
      }
      loading := true;
      var payload := Payload(form, cart.items);
      loadingAtCall := loading;
      var res, inserted := OrderService.CreateOrder(payload, now, insert);
      if res.Success? {
        successData := Some(res.data);
        cart.Clear();
      }
      loading := false;
      sent, result := Some(payload), Some(res);
    }
  }
}
