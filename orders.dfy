/** The order aggregate: an order and the line items it owns, the status
    names it may carry and its derived total. */
module Orders {
  import opened Common

  /** A line item (`OrderItem`). Its own key and the foreign key to its order
      are persistence details; here an item belongs to the order that holds it. */
  datatype OrderItem = OrderItem(
    productId: Guid,
    productName: string,
    quantity: int,
    unitPrice: real)

  /** An order (`Order`). The status is a plain string: nothing stops a
      caller from storing a spelling outside `IsDeclaredStatus`. */
  datatype Order = Order(
    id: Guid,
    userId: Guid,
    userName: string,
    userEmail: string,
    orderNumber: string,
    address: string,
    trackingNumber: Option<string>,
    orderStatus: string,
    createAt: Date,
    updateAt: Option<Date>,
    items: seq<OrderItem>)

  const Pendiente := "Pendiente"
  const EnProcesamiento := "En Procesamiento"
  const Enviado := "Enviado"
  const Entregado := "Entregado"
  const Cancelado := "Cancelado"

  /** The values the `[RegularExpression]` attribute on `Order.OrderStatus`
      admits: the whole string must be one of the five names, in this case. */
  predicate IsDeclaredStatus(s: string) {
    s in {Pendiente, EnProcesamiento, Enviado, Entregado, Cancelado}
  }

  /** `OrderItem.Subtotal`: quantity times unit price. */
  function Subtotal(item: OrderItem): real {
    item.quantity as real * item.unitPrice
  }

  /** `Order.TotalPrice`: the sum of the items' subtotals. */
  function TotalPrice(items: seq<OrderItem>): real {
    if items == [] then 0.0 else Subtotal(items[0]) + TotalPrice(items[1..])
  }

  /** The total of an order. */
  function OrderTotal(o: Order): real {
    TotalPrice(o.items)
  }

  /** An order with no items costs nothing, and one item costs its subtotal. */
  lemma TotalPriceSmall(item: OrderItem)
    ensures TotalPrice([]) == 0.0
    ensures TotalPrice([item]) == Subtotal(item)
  {
    assert [item][1..] == [];
  }

  /** The total of two item lists put together is the sum of their totals;
      in particular appending one item adds exactly its subtotal. */
  lemma {:induction false} TotalPriceAppend(a: seq<OrderItem>, b: seq<OrderItem>)
    ensures TotalPrice(a + b) == TotalPrice(a) + TotalPrice(b)
  {
    if a == [] {
      assert a + b == b;
    } else {
      assert (a + b)[1..] == a[1..] + b;
      TotalPriceAppend(a[1..], b);
    }
  }

  /** Appending an item raises the total by exactly that item's subtotal. */
  lemma TotalPriceAppendItem(items: seq<OrderItem>, item: OrderItem)
    ensures TotalPrice(items + [item]) == TotalPrice(items) + Subtotal(item)
  {
    TotalPriceAppend(items, [item]);
    TotalPriceSmall(item);
  }

  /** Removing the item at position `k` lowers the total by its subtotal. */
  lemma TotalPriceRemove(items: seq<OrderItem>, k: nat)
    requires k < |items|
    ensures TotalPrice(items) == TotalPrice(items[..k] + items[k + 1..]) + Subtotal(items[k])
  {
    assert items == items[..k] + ([items[k]] + items[k + 1..]);
    TotalPriceAppend(items[..k], [items[k]] + items[k + 1..]);
    TotalPriceAppend([items[k]], items[k + 1..]);
    TotalPriceAppend(items[..k], items[k + 1..]);
    TotalPriceSmall(items[k]);
  }

  /** Taking the same item out of two lists with equal multisets leaves
      lists with equal multisets. */
  lemma MultisetWithout(a: seq<OrderItem>, b: seq<OrderItem>, k: nat)
    requires a != [] && k < |b| && b[k] == a[0]
    requires multiset(a) == multiset(b)
    ensures multiset(a[1..]) == multiset(b[..k] + b[k + 1..])
  {
    assert b == b[..k] + [b[k]] + b[k + 1..];
    assert a == [a[0]] + a[1..];
    calc {
      multiset(b[..k] + b[k + 1..]);
      multiset(b[..k]) + multiset(b[k + 1..]);
      multiset(b) - multiset{a[0]};
      multiset(a) - multiset{a[0]};
      multiset(a[1..]);
    }
  }

  /** The total does not depend on the order of the items: any two lists
      holding the same items, with the same multiplicities, cost the same. */
  lemma {:induction false} TotalPricePermutation(a: seq<OrderItem>, b: seq<OrderItem>)
    requires multiset(a) == multiset(b)
    ensures TotalPrice(a) == TotalPrice(b)
    decreases |a|
  {
    if a == [] {
      assert |b| == |multiset(b)| == 0;
    } else {
      assert a[0] in multiset(b);
      var k :| 0 <= k < |b| && b[k] == a[0];
      MultisetWithout(a, b, k);
      TotalPricePermutation(a[1..], b[..k] + b[k + 1..]);
      TotalPriceRemove(b, k);
    }
  }

  /** When every quantity and unit price is positive, as the creation request
      validation demands, an order with at least one item has a positive total. */
  lemma {:induction false} TotalPricePositive(items: seq<OrderItem>)
    requires items != []
    requires forall i :: 0 <= i < |items| ==> items[i].quantity > 0 && items[i].unitPrice > 0.0
    ensures TotalPrice(items) > 0.0
  {
    var q := items[0].quantity as real;
    assert q > 0.0;
    assert Subtotal(items[0]) > 0.0 by {
      assert Subtotal(items[0]) == q * items[0].unitPrice;
    }
    if |items| > 1 {
      TotalPricePositive(items[1..]);
    } else {
      assert items[1..] == [];
    }
  }
}
