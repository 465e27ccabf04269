/** The `Available` decorator of DesignPatterns/Creational/Decorator.cs: a dish
    wrapped with a stock counter and the list of customers who ordered it. */
module Decorator {

  /** The concrete dishes; only carried as the decorated payload. */
  datatype RestaurantDish =
    | FreshSalad(greens: string, cheese: string, dressing: string)
    | Pasta(pastaType: string, sauce: string)

  /** The customers served, given the initial stock and every name ordered so
      far in call order: the first `initial` names, or none when the stock
      started at zero or below. */
  function Served(initial: int, orders: seq<string>): (served: seq<string>)
    ensures |served| == if initial <= 0 then 0 else if |orders| <= initial then |orders| else initial
    ensures served <= orders
  {
    if initial <= 0 then []
    else if |orders| <= initial then orders
    else orders[..initial]
  }

  /** One more order: served when stock remains, otherwise the served list is
      unchanged. */
  lemma ServedAfterOrder(initial: int, orders: seq<string>, name: string)
    ensures var before := Served(initial, orders);
            var after := Served(initial, orders + [name]);
            if initial - |before| > 0 then after == before + [name] else after == before
  {
  }

  /** `Available`. The ghost fields record the count given to the constructor and
      every name passed to `OrderItem`; `Valid` says the stock is conserved:
      each order served took one unit. */
  class Available {
    const dish: RestaurantDish
    var numAvailable: int
    var customers: seq<string>
    ghost const initialCount: int
    ghost var orders: seq<string>

    ghost predicate Valid()
      reads this
    {
      && customers == Served(initialCount, orders)
      && |customers| + numAvailable == initialCount
    }

    /** `Available(dish, numAvailable)`: no customers yet. */
    constructor (dish: RestaurantDish, numAvailable: int)
      ensures Valid()
      ensures this.dish == dish && this.numAvailable == numAvailable && customers == []
      ensures initialCount == numAvailable && orders == []
    {
      this.dish := dish;
      this.numAvailable := numAvailable;
      customers := [];
      initialCount := numAvailable;
      orders := [];
    }

    /** `OrderItem(name)`: with stock left, record the customer and take one
        unit; otherwise (the source prints a refusal) change nothing. */
    method OrderItem(name: string)
      modifies this
      ensures old(Valid()) ==> Valid()
      ensures orders == old(orders) + [name]
      ensures old(numAvailable) > 0 ==>
                customers == old(customers) + [name] && numAvailable == old(numAvailable) - 1
      ensures old(numAvailable) <= 0 ==>
                customers == old(customers) && numAvailable == old(numAvailable)
      ensures old(numAvailable) >= 0 ==> numAvailable >= 0
    {
      ServedAfterOrder(initialCount, orders, name);
      if numAvailable > 0 {
        customers := customers + [name];
        numAvailable := numAvailable - 1;
      }
      orders := orders + [name];
    }

    /** The public setter of the `NumAvailable` property. It bypasses the
        conservation of stock, so it does not keep `Valid`. */
    method SetNumAvailable(value: int)
      modifies this`numAvailable
      ensures numAvailable == value
    {
      numAvailable := value;
    }
  }

  /** The caesar-salad half of `TestMain`: three portions, three orders; John,
      Sally and Manush are all served and the stock ends at zero. */
  method CaesarOrders() returns (customers: seq<string>, left: int)
    ensures customers == ["John", "Sally", "Manush"]
    ensures left == 0
  {
    var caesar := new Available(FreshSalad("Crisp romaine lettuce", "Freshly-grated Parmesan cheese", "House-made Caesar dressing"), 3);
    caesar.OrderItem("John");
    caesar.OrderItem("Sally");
    caesar.OrderItem("Manush");
    customers, left := caesar.customers, caesar.numAvailable;
  }

  /** The alfredo half of `TestMain`: four portions, five orders; Dennis, the
      fifth, is refused and the stock ends at zero. */
  method AlfredoOrders() returns (customers: seq<string>, left: int)
    ensures customers == ["Sally", "Francis", "Venkat", "Diana"]
    ensures left == 0
  {
    var alfredo := new Available(Pasta("Fresh-made daily pasta", "Creamly garlic alfredo sauce"), 4);
    alfredo.OrderItem("Sally");
    alfredo.OrderItem("Francis");
    alfredo.OrderItem("Venkat");
    alfredo.OrderItem("Diana");
    alfredo.OrderItem("Dennis");
    customers, left := alfredo.customers, alfredo.numAvailable;
  }

  /** Orders still go by the stock after the public setter has changed it: a
      dish created with no portions and then given two serves its next order. */
  method RestockedOrder() returns (customers: seq<string>, left: int)
    ensures customers == ["Sally"] && left == 1
  {
    var salad := new Available(FreshSalad("Crisp romaine lettuce", "Freshly-grated Parmesan cheese", "House-made Caesar dressing"), 0);
    salad.SetNumAvailable(2);
    salad.OrderItem("Sally");
    customers, left := salad.customers, salad.numAvailable;
  }
}
