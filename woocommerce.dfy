/**
 * The WooCommerce side of a notification: order lookup and the three calls
 * the plugin makes on an order. The store does not model order state; it
 * records every call the plugin makes, in order.
 */
module WooCommerce {
  import opened Php

  datatype StoreCall =
    | LookupCall(reference: Value)                    // wc_get_order($reference)
    | StatusUpdateCall(reference: Value, status: string)  // $order->update_status($status)
    | PaymentCompleteCall(reference: Value)           // $order->payment_complete()
    | OrderNoteCall(reference: Value, note: string)   // $order->add_order_note($note)

  datatype CallKind = Lookup | StatusUpdate | PaymentComplete | OrderNote

  function KindOf(c: StoreCall): CallKind {
    match c
    case LookupCall(_) => Lookup
    case StatusUpdateCall(_, _) => StatusUpdate
    case PaymentCompleteCall(_) => PaymentComplete
    case OrderNoteCall(_, _) => OrderNote
  }

  /** How many calls of a kind a trace holds. */
  function Count(calls: seq<StoreCall>, kind: CallKind): nat {
    if calls == [] then 0
    else (if KindOf(calls[0]) == kind then 1 else 0) + Count(calls[1..], kind)
  }

  /** Counting distributes over the concatenation of two traces. */
  lemma {:induction false} CountAppend(a: seq<StoreCall>, b: seq<StoreCall>, kind: CallKind)
    ensures Count(a + b, kind) == Count(a, kind) + Count(b, kind)
  {
    if a != [] {
      assert (a + b)[1..] == a[1..] + b;
      CountAppend(a[1..], b, kind);
    } else {
      assert a + b == b;
    }
  }

  /** The count over a trace of two calls. */
  lemma CountPair(x: StoreCall, y: StoreCall, kind: CallKind)
    ensures Count([x, y], kind) == (if KindOf(x) == kind then 1 else 0) + (if KindOf(y) == kind then 1 else 0)
  {
    assert [x, y][1..] == [y];
    assert [y][1..] == [];
    assert Count([y], kind) == (if KindOf(y) == kind then 1 else 0) + Count([], kind);
  }

  class OrderStore {
    /** The references `wc_get_order` resolves to an order. */
    const orders: set<Value>
    /** Every call made on the store, oldest first. */
    var calls: seq<StoreCall>

    constructor (orders: set<Value>)
      ensures this.orders == orders && calls == []
    {
      this.orders := orders;
      calls := [];
    }

    method GetOrder(reference: Value) returns (found: bool)
      modifies this
      ensures found <==> reference in orders
      ensures calls == old(calls) + [LookupCall(reference)]
    {
      found := reference in orders;
      calls := calls + [LookupCall(reference)];
    }

    method UpdateStatus(reference: Value, status: string)
      modifies this
      ensures calls == old(calls) + [StatusUpdateCall(reference, status)]
    {
      calls := calls + [StatusUpdateCall(reference, status)];
    }

    method PaymentComplete(reference: Value)
      modifies this
      ensures calls == old(calls) + [PaymentCompleteCall(reference)]
    {
      calls := calls + [PaymentCompleteCall(reference)];
    }

    method AddOrderNote(reference: Value, note: string)
      modifies this
      ensures calls == old(calls) + [OrderNoteCall(reference, note)]
    {
      calls := calls + [OrderNoteCall(reference, note)];
    }
  }
}
