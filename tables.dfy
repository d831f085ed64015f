/** Rows of the bot's database tables, as the handlers read them. A missing JavaScript
    field or a SQL `null` is `None`; an absent text column that the code only tests for
    truthiness is the empty string. */
module Tables {
  import opened Options

  /** A row of `users`: created on the first private message. */
  datatype User = User(vkId: int, username: string, role: string, blacklistedUntil: Option<int>)

  /** A row of `employees`. */
  datatype Employee = Employee(vkId: int, username: string, role: string)

  /** Rows of `categories` and `products`. `nutrition` is "" when the column is empty. */
  datatype Category = Category(id: int, name: string)
  datatype Product = Product(id: int, categoryId: int, name: string, price: int, costPrice: int, nutrition: string)

  /** The JSON `data` column of `user_states`: the keys the dialogue steps store. */
  datatype StateData = StateData(
    orderId: Option<int>,
    categoryId: Option<int>,
    username: Option<string>,
    location: Option<string>,
    categories: Option<seq<Category>>,
    products: Option<seq<Product>>)

  /** `{}` */
  const EmptyData := StateData(None, None, None, None, None, None)

  /** A row of `user_states`. */
  datatype StateRow = StateRow(state: string, data: StateData)

  /** What `getUserState` returns: the row, or `{ state: null, data: {} }`. */
  datatype StateView = StateView(state: Option<string>, data: StateData)

  /** A row of `cart`. */
  datatype CartRow = CartRow(id: int, userVkId: int, productId: int, quantity: int)

  /** A row of `cart` joined with its product (`select('*, product:products(*)')`);
      `product` is `None` when the product row no longer exists. */
  datatype CartItem = CartItem(row: CartRow, product: Option<Product>)

  /** A row of `orders`. Timestamps are milliseconds. */
  datatype Order = Order(
    id: int,
    clientVkId: int,
    clientUsername: Option<string>,
    deliveryLocation: Option<string>,
    totalPrice: int,
    totalCost: int,
    status: string,
    courierVkId: Option<int>,
    courierUsername: Option<string>,
    estimatedTime: Option<string>,
    acceptedAt: Option<int>,
    completedAt: Option<int>)

  /** A row of `order_items`: a snapshot of the product taken when the order was placed. */
  datatype OrderItem = OrderItem(
    orderId: int,
    productId: int,
    productName: string,
    productPrice: int,
    productCostPrice: int,
    quantity: int)

  /** A row of `chats`: the role a group chat was registered under. */
  datatype Chat = Chat(chatType: string, peerId: int, name: string)

  /** A row of `daily_stats` (keyed by user and day). */
  datatype DailyStat = DailyStat(username: string, messagesCount: int)

  /** A row of `online_activity`. */
  datatype Activity = Activity(username: string, status: string, lastActivity: int, onlineMinutes: int)

  /** The item shape `formatCart` and `removeItemKeyboard` read (`item.name`,
      `item.nutrition`, `item.price`, `item.quantity`). */
  datatype CartLine = CartLine(name: string, nutrition: string, price: int, quantity: int)

  /** `getOrderItems(orderId)`: the items of one order, in insertion order. */
  function ItemsOfOrder(items: seq<OrderItem>, orderId: int): (r: seq<OrderItem>)
    ensures |r| <= |items|
    ensures forall k :: 0 <= k < |r| ==> r[k].orderId == orderId
  {
    if items == [] then []
    else
      var rest := ItemsOfOrder(items[..|items| - 1], orderId);
      var last := items[|items| - 1];
      if last.orderId == orderId then rest + [last] else rest
  }

  /** Sum of `product_price * quantity` over order items. */
  function ItemsPrice(items: seq<OrderItem>): int {
    if items == [] then 0
    else ItemsPrice(items[..|items| - 1]) + items[|items| - 1].productPrice * items[|items| - 1].quantity
  }

  /** Sum of `product_cost_price * quantity` over order items. */
  function ItemsCost(items: seq<OrderItem>): int {
    if items == [] then 0
    else ItemsCost(items[..|items| - 1]) + items[|items| - 1].productCostPrice * items[|items| - 1].quantity
  }

  /** One more item of a prefix adds its price and cost. */
  lemma ItemsTotalsStep(items: seq<OrderItem>, j: nat)
    requires j < |items|
    ensures ItemsPrice(items[..j + 1]) == ItemsPrice(items[..j]) + items[j].productPrice * items[j].quantity
    ensures ItemsCost(items[..j + 1]) == ItemsCost(items[..j]) + items[j].productCostPrice * items[j].quantity
  {
    assert items[..j + 1][..j] == items[..j];
  }

  /** `getOrderItems` returns every item of the order and nothing else. */
  lemma {:induction false} ItemsOfOrderMembers(items: seq<OrderItem>, orderId: int)
    ensures forall it :: it in ItemsOfOrder(items, orderId) <==> it in items && it.orderId == orderId
  {
    if items != [] {
      var front := items[..|items| - 1];
      ItemsOfOrderMembers(front, orderId);
      assert items == front + [items[|items| - 1]];
    }
  }

  /** Appending items that belong to other orders leaves an order's items unchanged. */
  lemma {:induction false} ItemsOfOrderAppendOther(items: seq<OrderItem>, more: seq<OrderItem>, orderId: int)
    requires forall it :: it in more ==> it.orderId != orderId
    ensures ItemsOfOrder(items + more, orderId) == ItemsOfOrder(items, orderId)
  {
    if more != [] {
      var all := items + more;
      assert all[..|all| - 1] == items + more[..|more| - 1];
      assert more[|more| - 1] in more;
      ItemsOfOrderAppendOther(items, more[..|more| - 1], orderId);
    } else {
      assert items + more == items;
    }
  }

  /** When no earlier item belongs to the order, its items are exactly the appended ones
      that do. */
  lemma {:induction false} ItemsOfOrderAppendOwn(items: seq<OrderItem>, more: seq<OrderItem>, orderId: int)
    requires forall it :: it in items ==> it.orderId != orderId
    requires forall it :: it in more ==> it.orderId == orderId
    ensures ItemsOfOrder(items + more, orderId) == more
  {
    if more == [] {
      assert items + more == items;
      ItemsOfOrderNone(items, orderId);
    } else {
      var all := items + more;
      var front := more[..|more| - 1];
      var last := more[|more| - 1];
      assert all[..|all| - 1] == items + front;
      assert all[|all| - 1] == last;
      assert last in more;
      ItemsOfOrderAppendOwn(items, front, orderId);
      assert ItemsOfOrder(all, orderId) == ItemsOfOrder(items + front, orderId) + [last];
      assert more == front + [last];
    }
  }

  lemma {:induction false} ItemsOfOrderNone(items: seq<OrderItem>, orderId: int)
    requires forall it :: it in items ==> it.orderId != orderId
    ensures ItemsOfOrder(items, orderId) == []
  {
    if items != [] {
      assert items[|items| - 1] in items;
      ItemsOfOrderNone(items[..|items| - 1], orderId);
    }
  }
}
