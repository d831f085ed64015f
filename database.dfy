/** The Supabase tables of `lib/vk-database.js` held in memory, and each query and write
    as its effect on them. A `.single()` query yields the matching row, or nothing; the
    store's invariant keeps the keys the handlers query by unique. Times are
    milliseconds and a day is a day number. */
module Database {
  import opened Options
  import opened Tables
  import JsText
  import Helpers

  const MinuteMs := 60000
  const DayMs := 86400000

  /** `getOnlineUsers` counts activity within the last five minutes. */
  const OnlineWindowMs := 5 * 60 * 1000

  /** All tables at one moment; lets callers state what an operation leaves alone. */
  datatype Snapshot = Snapshot(
    users: map<int, User>,
    employees: map<int, Employee>,
    categories: seq<Category>,
    products: seq<Product>,
    cart: seq<CartRow>,
    nextCartId: int,
    userStates: map<int, StateRow>,
    orders: seq<Order>,
    nextOrderId: int,
    orderItems: seq<OrderItem>,
    chats: seq<Chat>,
    dailyStats: map<(int, int), DailyStat>,
    onlineActivity: map<int, Activity>)

  // ---------------------------------------------------------------------------
  // Invariants of the tables
  // ---------------------------------------------------------------------------

  /** `users` is keyed by `vk_id`. */
  predicate UsersValid(users: map<int, User>) {
    forall k :: k in users ==> users[k].vkId == k
  }

  /** Cart-row ids are distinct and below the next id; a user holds at most one row per
      product (`addToCart` accumulates into it). */
  predicate CartValid(cart: seq<CartRow>, nextCartId: int) {
    && (forall i :: 0 <= i < |cart| ==> cart[i].id < nextCartId)
    && (forall i, j :: 0 <= i < j < |cart| ==> cart[i].id != cart[j].id)
    && (forall i, j :: 0 <= i < j < |cart| ==>
          !(cart[i].userVkId == cart[j].userVkId && cart[i].productId == cart[j].productId))
  }

  /** An order's items add up to its stored totals. */
  predicate Priced(o: Order, items: seq<OrderItem>) {
    && ItemsPrice(ItemsOfOrder(items, o.id)) == o.totalPrice
    && ItemsCost(ItemsOfOrder(items, o.id)) == o.totalCost
  }

  /** Order ids are distinct and below the next id, every item belongs to an id already
      issued, and every order is priced by its items. */
  predicate OrdersValid(orders: seq<Order>, nextOrderId: int, items: seq<OrderItem>) {
    && (forall i :: 0 <= i < |orders| ==> orders[i].id < nextOrderId)
    && (forall i, j :: 0 <= i < j < |orders| ==> orders[i].id != orders[j].id)
    && (forall i :: 0 <= i < |items| ==> items[i].orderId < nextOrderId)
    && (forall i :: 0 <= i < |orders| ==> Priced(orders[i], items))
  }

  /** `chats` is upserted on `peer_id`. */
  predicate ChatsValid(chats: seq<Chat>) {
    forall i, j :: 0 <= i < j < |chats| ==> chats[i].peerId != chats[j].peerId
  }

  /** `a` sorts no later than `b` by code point, the order `.order('name')` gives under a
      byte-wise collation: a prefix sorts first, otherwise the first differing character
      decides. */
  predicate NameLe(a: string, b: string) {
    a == [] || (b != [] && (a[0] < b[0] || (a[0] == b[0] && NameLe(a[1..], b[1..]))))
  }

  /** Any two names are ordered one way or the other. */
  lemma {:induction false} NameLeTotal(a: string, b: string)
    ensures NameLe(a, b) || NameLe(b, a)
  {
    if a != [] && b != [] && a[0] == b[0] {
      NameLeTotal(a[1..], b[1..]);
    }
  }

  /** Names ordered both ways are equal. */
  lemma {:induction false} NameLeAntisymmetric(a: string, b: string)
    requires NameLe(a, b) && NameLe(b, a)
    ensures a == b
  {
    if a != [] {
      NameLeAntisymmetric(a[1..], b[1..]);
      assert a == [a[0]] + a[1..] && b == [b[0]] + b[1..];
    }
  }

  /** `getCategories()` reads the table ordered by name. */
  predicate CategoriesByName(cs: seq<Category>) {
    forall i, j :: 0 <= i < j < |cs| ==> NameLe(cs[i].name, cs[j].name)
  }

  /** `getAllProducts()` and `getProductsByCategory` read the table ordered by name. */
  predicate ProductsByName(ps: seq<Product>) {
    forall i, j :: 0 <= i < j < |ps| ==> NameLe(ps[i].name, ps[j].name)
  }

  /** The tables as the store reads them: keys unique, totals consistent, and the
      category and product tables in the name order the catalogue queries ask for (no
      operation of the bot writes either table). */
  predicate SnapshotValid(t: Snapshot) {
    && CategoriesByName(t.categories)
    && ProductsByName(t.products)
    && UsersValid(t.users)
    && CartValid(t.cart, t.nextCartId)
    && OrdersValid(t.orders, t.nextOrderId, t.orderItems)
    && ChatsValid(t.chats)
  }

  // ---------------------------------------------------------------------------
  // Row lookups
  // ---------------------------------------------------------------------------

  function FindProduct(products: seq<Product>, id: int): (r: Option<Product>)
    ensures r.Some? ==> r.value in products && r.value.id == id
    ensures r.None? <==> forall k :: 0 <= k < |products| ==> products[k].id != id
  {
    if products == [] then None
    else if products[0].id == id then Some(products[0])
    else FindProduct(products[1..], id)
  }

  function FindCategory(categories: seq<Category>, id: int): (r: Option<Category>)
    ensures r.Some? ==> r.value in categories && r.value.id == id
    ensures r.None? <==> forall k :: 0 <= k < |categories| ==> categories[k].id != id
  {
    if categories == [] then None
    else if categories[0].id == id then Some(categories[0])
    else FindCategory(categories[1..], id)
  }

  /** `getProductsByCategory(categoryId)`: the category's products, in table order, which
      `SnapshotValid` keeps by name. */
  function ProductsInCategory(products: seq<Product>, categoryId: int): (r: seq<Product>)
    ensures forall p :: p in r <==> p in products && p.categoryId == categoryId
    ensures |r| <= |products|
  {
    if products == [] then []
    else
      var rest := ProductsInCategory(products[1..], categoryId);
      if products[0].categoryId == categoryId then [products[0]] + rest else rest
  }

  /** Filtering by category keeps the name order: `getProductsByCategory` lists a
      category's products by name. */
  lemma {:induction false} ProductsInCategoryByName(products: seq<Product>, categoryId: int)
    requires ProductsByName(products)
    ensures ProductsByName(ProductsInCategory(products, categoryId))
  {
    if products != [] {
      var tail := products[1..];
      var rest := ProductsInCategory(tail, categoryId);
      ProductsInCategoryByName(tail, categoryId);
      if products[0].categoryId == categoryId {
        var head := products[0];
        assert forall j :: 0 <= j < |tail| ==> NameLe(head.name, tail[j].name) by {
          assert forall j :: 0 <= j < |tail| ==> tail[j] == products[j + 1];
        }
        assert forall x :: x in rest ==> NameLe(head.name, x.name);
        var r := [head] + rest;
        assert forall j :: 0 < j < |r| ==> r[j] == rest[j - 1];
      }
    }
  }

  function FindOrder(orders: seq<Order>, id: int): (r: Option<nat>)
    ensures r.Some? ==> r.value < |orders| && orders[r.value].id == id
    ensures r.None? <==> forall k :: 0 <= k < |orders| ==> orders[k].id != id
  {
    if orders == [] then None
    else if orders[0].id == id then Some(0)
    else match FindOrder(orders[1..], id)
      case None => None
      case Some(k) => Some(k + 1)
  }

  function FindChat(chats: seq<Chat>, peerId: int): (r: Option<nat>)
    ensures r.Some? ==> r.value < |chats| && chats[r.value].peerId == peerId
    ensures r.None? <==> forall k :: 0 <= k < |chats| ==> chats[k].peerId != peerId
  {
    if chats == [] then None
    else if chats[0].peerId == peerId then Some(0)
    else match FindChat(chats[1..], peerId)
      case None => None
      case Some(k) => Some(k + 1)
  }

  function ChatsOfType(chats: seq<Chat>, chatType: string): (r: seq<Chat>)
    ensures forall c :: c in r <==> c in chats && c.chatType == chatType
  {
    if chats == [] then []
    else
      var rest := ChatsOfType(chats[1..], chatType);
      if chats[0].chatType == chatType then [chats[0]] + rest else rest
  }

  // ---------------------------------------------------------------------------
  // Cart
  // ---------------------------------------------------------------------------

  /** The row of `user`'s cart holding `productId`, if any. */
  function FindCartRow(cart: seq<CartRow>, user: int, productId: int): (r: Option<nat>)
    ensures r.Some? ==> r.value < |cart| && cart[r.value].userVkId == user && cart[r.value].productId == productId
    ensures r.None? <==> forall k :: 0 <= k < |cart| ==> !(cart[k].userVkId == user && cart[k].productId == productId)
  {
    if cart == [] then None
    else if cart[0].userVkId == user && cart[0].productId == productId then Some(0)
    else match FindCartRow(cart[1..], user, productId)
      case None => None
      case Some(k) => Some(k + 1)
  }

  /** `addToCart` as a table effect: the existing row grows, or a row is inserted. */
  function CartAdded(cart: seq<CartRow>, newId: int, user: int, productId: int, q: int): seq<CartRow> {
    match FindCartRow(cart, user, productId)
    case Some(k) => cart[k := cart[k].(quantity := cart[k].quantity + q)]
    case None => cart + [CartRow(newId, user, productId, q)]
  }

  /** The quantity of `productId` in `user`'s cart (0 when it holds no row). */
  function Held(cart: seq<CartRow>, user: int, productId: int): int {
    match FindCartRow(cart, user, productId)
    case Some(k) => cart[k].quantity
    case None => 0
  }

  /** `delete().eq('id', id)` */
  function WithoutRow(cart: seq<CartRow>, id: int): (r: seq<CartRow>)
    ensures forall row :: row in r <==> row in cart && row.id != id
    ensures |r| <= |cart|
  {
    if cart == [] then []
    else
      var rest := WithoutRow(cart[1..], id);
      if cart[0].id != id then [cart[0]] + rest else rest
  }

  /** `delete().eq('user_vk_id', user)` */
  function WithoutUser(cart: seq<CartRow>, user: int): (r: seq<CartRow>)
    ensures forall row :: row in r <==> row in cart && row.userVkId != user
    ensures |r| <= |cart|
  {
    if cart == [] then []
    else
      var rest := WithoutUser(cart[1..], user);
      if cart[0].userVkId != user then [cart[0]] + rest else rest
  }

  /** `getCartItems(user)`: the user's rows, each joined with its product. */
  function CartItemsOf(cart: seq<CartRow>, products: seq<Product>, user: int): (r: seq<CartItem>)
    ensures |r| <= |cart|
    ensures forall k :: 0 <= k < |r| ==> r[k].row in cart && r[k].row.userVkId == user
    ensures forall k :: 0 <= k < |r| ==> r[k].product == FindProduct(products, r[k].row.productId)
    ensures forall row :: row in cart && row.userVkId == user ==>
              CartItem(row, FindProduct(products, row.productId)) in r
  {
    if cart == [] then []
    else
      var rest := CartItemsOf(cart[1..], products, user);
      if cart[0].userVkId == user then [CartItem(cart[0], FindProduct(products, cart[0].productId))] + rest
      else rest
  }

  /** Updating a row in place keeps every row's key, so lookups by key find the same
      index. */
  lemma {:induction false} SameKeysSameFind(cart: seq<CartRow>, other: seq<CartRow>, user: int, productId: int)
    requires |cart| == |other|
    requires forall k :: 0 <= k < |cart| ==> cart[k].userVkId == other[k].userVkId && cart[k].productId == other[k].productId
    ensures FindCartRow(cart, user, productId) == FindCartRow(other, user, productId)
  {
    if cart != [] {
      SameKeysSameFind(cart[1..], other[1..], user, productId);
    }
  }

  lemma {:induction false} FindCartRowAppend(cart: seq<CartRow>, row: CartRow, user: int, productId: int)
    ensures FindCartRow(cart + [row], user, productId) ==
              if FindCartRow(cart, user, productId).Some? then FindCartRow(cart, user, productId)
              else if row.userVkId == user && row.productId == productId then Some(|cart|)
              else None
  {
    if cart != [] {
      assert (cart + [row])[1..] == cart[1..] + [row];
      FindCartRowAppend(cart[1..], row, user, productId);
    }
  }

  /** `addToCart(user, productId, q)` raises the quantity the user holds of that
      product by `q` and leaves every other (user, product) quantity as it was; rows
      keep their ids and keys, and a row is added exactly when none existed. */
  lemma CartAddedEffect(cart: seq<CartRow>, newId: int, user: int, productId: int, q: int, u: int, p: int)
    ensures Held(CartAdded(cart, newId, user, productId, q), u, p)
            == Held(cart, u, p) + (if u == user && p == productId then q else 0)
    ensures var r := CartAdded(cart, newId, user, productId, q);
            && |r| == |cart| + (if FindCartRow(cart, user, productId).None? then 1 else 0)
            && (forall k :: 0 <= k < |cart| ==> r[k].id == cart[k].id && r[k].userVkId == cart[k].userVkId && r[k].productId == cart[k].productId)
            && (|r| > |cart| ==> r[|cart|] == CartRow(newId, user, productId, q))
  {
    var r := CartAdded(cart, newId, user, productId, q);
    match FindCartRow(cart, user, productId)
    case Some(k) =>
      SameKeysSameFind(cart, r, u, p);
    case None =>
      FindCartRowAppend(cart, CartRow(newId, user, productId, q), u, p);
  }

  /** After `clearCart(user)` the user's cart is empty and every other user's cart is
      as it was. */
  lemma {:induction false} ClearedCartItems(cart: seq<CartRow>, products: seq<Product>, user: int, u: int)
    ensures CartItemsOf(WithoutUser(cart, user), products, u) == if u == user then [] else CartItemsOf(cart, products, u)
  {
    if cart != [] {
      ClearedCartItems(cart[1..], products, user, u);
    }
  }

  lemma AddKeepsCartValid(cart: seq<CartRow>, nextCartId: int, user: int, productId: int, q: int)
    requires CartValid(cart, nextCartId)
    ensures CartValid(CartAdded(cart, nextCartId, user, productId, q),
                      if FindCartRow(cart, user, productId).None? then nextCartId + 1 else nextCartId)
  {
    CartAddedEffect(cart, nextCartId, user, productId, q, user, productId);
  }

  /** A row that differs from every row after it, in id and in key, keeps a valid
      cart valid when put in front. */
  lemma ConsKeepsCartValid(row: CartRow, rest: seq<CartRow>, nextCartId: int)
    requires CartValid(rest, nextCartId) && row.id < nextCartId
    requires forall k :: 0 <= k < |rest| ==> rest[k].id != row.id && !(rest[k].userVkId == row.userVkId && rest[k].productId == row.productId)
    ensures CartValid([row] + rest, nextCartId)
  {
    var r := [row] + rest;
    forall i, j | 0 <= i < j < |r|
      ensures r[i].id != r[j].id && !(r[i].userVkId == r[j].userVkId && r[i].productId == r[j].productId)
    {
      assert r[j] == rest[j - 1];
      if i > 0 {
        assert r[i] == rest[i - 1];
      }
    }
  }

  /** Every row after the first differs from it in id and in key. */
  lemma TailDiffers(cart: seq<CartRow>, nextCartId: int, row: CartRow)
    requires CartValid(cart, nextCartId) && cart != []
    requires row in cart[1..]
    ensures row.id != cart[0].id && !(row.userVkId == cart[0].userVkId && row.productId == cart[0].productId)
    ensures row.id < nextCartId
  {
    var tail := cart[1..];
    var b :| 0 <= b < |tail| && tail[b] == row;
    assert cart[b + 1] == row;
  }

  lemma TailValid(cart: seq<CartRow>, nextCartId: int)
    requires CartValid(cart, nextCartId) && cart != []
    ensures CartValid(cart[1..], nextCartId)
  {
    var tail := cart[1..];
    forall i, j | 0 <= i < j < |tail|
      ensures tail[i].id != tail[j].id && !(tail[i].userVkId == tail[j].userVkId && tail[i].productId == tail[j].productId)
    {
      assert tail[i] == cart[i + 1] && tail[j] == cart[j + 1];
    }
  }

  /** `removeFromCart` keeps the cart invariant. */
  lemma {:induction false} WithoutRowValid(cart: seq<CartRow>, nextCartId: int, id: int)
    requires CartValid(cart, nextCartId)
    ensures CartValid(WithoutRow(cart, id), nextCartId)
  {
    if cart != [] {
      TailValid(cart, nextCartId);
      WithoutRowValid(cart[1..], nextCartId, id);
      var rest := WithoutRow(cart[1..], id);
      if cart[0].id != id {
        forall k | 0 <= k < |rest|
          ensures rest[k].id != cart[0].id && !(rest[k].userVkId == cart[0].userVkId && rest[k].productId == cart[0].productId)
        {
          assert rest[k] in rest;
          TailDiffers(cart, nextCartId, rest[k]);
        }
        ConsKeepsCartValid(cart[0], rest, nextCartId);
      }
    }
  }

  /** `clearCart` keeps the cart invariant. */
  lemma {:induction false} WithoutUserValid(cart: seq<CartRow>, nextCartId: int, user: int)
    requires CartValid(cart, nextCartId)
    ensures CartValid(WithoutUser(cart, user), nextCartId)
  {
    if cart != [] {
      TailValid(cart, nextCartId);
      WithoutUserValid(cart[1..], nextCartId, user);
      var rest := WithoutUser(cart[1..], user);
      if cart[0].userVkId != user {
        forall k | 0 <= k < |rest|
          ensures rest[k].id != cart[0].id && !(rest[k].userVkId == cart[0].userVkId && rest[k].productId == cart[0].productId)
        {
          assert rest[k] in rest;
          TailDiffers(cart, nextCartId, rest[k]);
        }
        ConsKeepsCartValid(cart[0], rest, nextCartId);
      }
    }
  }

  // ---------------------------------------------------------------------------
  // Orders
  // ---------------------------------------------------------------------------

  /** The row `createOrder` inserts: status 'pending', no courier yet. */
  function NewOrder(id: int, client: int, username: Option<string>, location: Option<string>, price: int, cost: int): Order {
    Order(id, client, username, location, price, cost, "pending", None, None, None, None, None)
  }

  /** Every cart item still has its product (`item.product.price` throws otherwise). */
  predicate AllPriced(items: seq<CartItem>) {
    forall k :: 0 <= k < |items| ==> items[k].product.Some?
  }

  /** `cartItems.reduce((sum, item) => sum + item.product.price * item.quantity, 0)` */
  function CartPrice(items: seq<CartItem>): int
    requires AllPriced(items)
  {
    if items == [] then 0
    else
      var it := items[|items| - 1];
      CartPrice(items[..|items| - 1]) + it.product.value.price * it.row.quantity
  }

  function CartCost(items: seq<CartItem>): int
    requires AllPriced(items)
  {
    if items == [] then 0
    else
      var it := items[|items| - 1];
      CartCost(items[..|items| - 1]) + it.product.value.costPrice * it.row.quantity
  }

  /** The `order_items` row for one cart item: a snapshot of its product. */
  function ItemSnapshot(orderId: int, it: CartItem): OrderItem
    requires it.product.Some?
  {
    var p := it.product.value;
    OrderItem(orderId, it.row.productId, p.name, p.price, p.costPrice, it.row.quantity)
  }

  function SnapshotItems(orderId: int, items: seq<CartItem>): (r: seq<OrderItem>)
    requires AllPriced(items)
    ensures |r| == |items| && forall k :: 0 <= k < |r| ==> r[k] == ItemSnapshot(orderId, items[k])
  {
    seq(|items|, k requires 0 <= k < |items| => ItemSnapshot(orderId, items[k]))
  }

  /** The snapshot rows add up to the totals stored on the order. */
  lemma {:induction false} SnapshotTotals(orderId: int, items: seq<CartItem>)
    requires AllPriced(items)
    ensures ItemsPrice(SnapshotItems(orderId, items)) == CartPrice(items)
    ensures ItemsCost(SnapshotItems(orderId, items)) == CartCost(items)
  {
    if items != [] {
      var front := items[..|items| - 1];
      var s := SnapshotItems(orderId, items);
      assert s[..|s| - 1] == SnapshotItems(orderId, front);
      SnapshotTotals(orderId, front);
    }
  }

  /** Inserting an order with a fresh id together with its snapshot rows keeps every
      order priced by its items. */
  lemma CreateOrderKeepsValid(orders: seq<Order>, nextOrderId: int, items: seq<OrderItem>, order: Order, cartItems: seq<CartItem>)
    requires OrdersValid(orders, nextOrderId, items)
    requires AllPriced(cartItems)
    requires order == NewOrder(nextOrderId, order.clientVkId, order.clientUsername, order.deliveryLocation, CartPrice(cartItems), CartCost(cartItems))
    ensures OrdersValid(orders + [order], nextOrderId + 1, items + SnapshotItems(nextOrderId, cartItems))
  {
    var more := SnapshotItems(nextOrderId, cartItems);
    var all := items + more;
    var os := orders + [order];
    forall i | 0 <= i < |os| ensures Priced(os[i], all) {
      if i < |orders| {
        assert os[i] == orders[i];
        ItemsOfOrderAppendOther(items, more, orders[i].id);
      } else {
        ItemsOfOrderAppendOwn(items, more, nextOrderId);
        SnapshotTotals(nextOrderId, cartItems);
      }
    }
    forall i | 0 <= i < |all| ensures all[i].orderId < nextOrderId + 1 {
      if i >= |items| {
        assert all[i] == more[i - |items|];
      }
    }
  }

  /** The `updates` object `updateOrderStatus` builds: `None` leaves a column alone. */
  datatype OrderUpdates = OrderUpdates(
    status: string,
    courierVkId: Option<int>,
    courierUsername: Option<string>,
    estimatedTime: Option<string>,
    acceptedAt: Option<int>,
    completedAt: Option<int>)

  /** `update(updates)` applied to one row. */
  function ApplyUpdates(o: Order, u: OrderUpdates): Order {
    o.(status := u.status,
       courierVkId := if u.courierVkId.Some? then u.courierVkId else o.courierVkId,
       courierUsername := if u.courierUsername.Some? then u.courierUsername else o.courierUsername,
       estimatedTime := if u.estimatedTime.Some? then u.estimatedTime else o.estimatedTime,
       acceptedAt := if u.acceptedAt.Some? then u.acceptedAt else o.acceptedAt,
       completedAt := if u.completedAt.Some? then u.completedAt else o.completedAt)
  }

  /** `update(updates).eq('id', orderId)` on the whole table. */
  function UpdateWhere(orders: seq<Order>, orderId: int, u: OrderUpdates): (r: seq<Order>)
    ensures |r| == |orders|
    ensures forall k :: 0 <= k < |r| ==> r[k] == if orders[k].id == orderId then ApplyUpdates(orders[k], u) else orders[k]
  {
    seq(|orders|, k requires 0 <= k < |orders| => if orders[k].id == orderId then ApplyUpdates(orders[k], u) else orders[k])
  }

  /** An update never touches an order's id, client or totals, so the orders stay
      priced by their items. */
  lemma UpdateKeepsOrdersValid(orders: seq<Order>, nextOrderId: int, items: seq<OrderItem>, orderId: int, u: OrderUpdates)
    requires OrdersValid(orders, nextOrderId, items)
    ensures OrdersValid(UpdateWhere(orders, orderId, u), nextOrderId, items)
  {
    var r := UpdateWhere(orders, orderId, u);
    forall i | 0 <= i < |r| ensures Priced(r[i], items) {
      assert Priced(orders[i], items);
    }
  }

  /** The `updates` object `updateOrderStatus(orderId, status, courierVkId,
      courierUsername, estimatedTime)` builds at time `now`. */
  function StatusUpdates(status: string, courierVkId: Option<int>, courierUsername: Option<string>,
                         estimatedTime: Option<string>, now: int): OrderUpdates {
    OrderUpdates(status,
                 if JsText.TruthyNum(courierVkId) then courierVkId else None,
                 if JsText.Truthy(courierUsername) then courierUsername else None,
                 if JsText.Truthy(estimatedTime) then estimatedTime else None,
                 if status == "accepted" then Some(now) else None,
                 if status == "completed" then Some(now) else None)
  }

  /** What `updateOrderStatus` does to the target row: the status is always written;
      the courier and the estimate only when truthy; `accepted_at` exactly when the
      status is 'accepted' and `completed_at` exactly when it is 'completed'. Nothing
      else of the row changes. */
  lemma StatusUpdateEffect(o: Order, status: string, courierVkId: Option<int>, courierUsername: Option<string>,
                           estimatedTime: Option<string>, now: int)
    ensures var r := ApplyUpdates(o, StatusUpdates(status, courierVkId, courierUsername, estimatedTime, now));
            && r.status == status
            && r.courierVkId == (if JsText.TruthyNum(courierVkId) then courierVkId else o.courierVkId)
            && r.courierUsername == (if JsText.Truthy(courierUsername) then courierUsername else o.courierUsername)
            && r.estimatedTime == (if JsText.Truthy(estimatedTime) then estimatedTime else o.estimatedTime)
            && (r.acceptedAt != o.acceptedAt ==> status == "accepted")
            && (status == "accepted" ==> r.acceptedAt == Some(now))
            && (r.completedAt != o.completedAt ==> status == "completed")
            && (status == "completed" ==> r.completedAt == Some(now))
            && r.(status := o.status, courierVkId := o.courierVkId, courierUsername := o.courierUsername,
                  estimatedTime := o.estimatedTime, acceptedAt := o.acceptedAt, completedAt := o.completedAt) == o
  {
  }

  /** Sum of the stored `total_price` of a list of orders. */
  function TotalPrices(orders: seq<Order>): int {
    if orders == [] then 0 else TotalPrices(orders[..|orders| - 1]) + orders[|orders| - 1].totalPrice
  }

  // ---------------------------------------------------------------------------
  // Chats
  // ---------------------------------------------------------------------------

  /** `saveChat` as a table effect: upsert on `peer_id`. */
  function ChatSaved(chats: seq<Chat>, c: Chat): seq<Chat> {
    match FindChat(chats, c.peerId)
    case Some(k) => chats[k := c]
    case None => chats + [c]
  }

  /** After `saveChat(type, peerId, name)` the chat at `peerId` is exactly the saved row,
      every other peer's row is unchanged, and the table grows by one row exactly when
      the peer was new. */
  lemma ChatSavedEffect(chats: seq<Chat>, c: Chat)
    requires ChatsValid(chats)
    ensures var r := ChatSaved(chats, c);
            && ChatsValid(r)
            && FindChat(r, c.peerId).Some?
            && (forall k :: 0 <= k < |r| && r[k].peerId == c.peerId ==> r[k] == c)
            && |r| == |chats| + (if FindChat(chats, c.peerId).None? then 1 else 0)
            && (forall k :: 0 <= k < |chats| && chats[k].peerId != c.peerId ==> r[k] == chats[k])
  {
    var r := ChatSaved(chats, c);
    match FindChat(chats, c.peerId)
    case Some(i) =>
      assert r[i] == c;
    case None =>
      assert r[|chats|] == c;
  }

  // ---------------------------------------------------------------------------
  // Activity
  // ---------------------------------------------------------------------------

  /** `Math.floor((now - last) / 60000)` */
  function ElapsedMinutes(last: int, now: int): (m: int)
    ensures m * MinuteMs <= now - last < (m + 1) * MinuteMs
  {
    (now - last) / MinuteMs
  }

  /** `getOnlineUsers()` at time `now`: status 'online' and active in the last five
      minutes. */
  function OnlineSet(acts: map<int, Activity>, now: int): set<int> {
    set k | k in acts && acts[k].status == "online" && acts[k].lastActivity >= now - OnlineWindowMs
  }

  /** `setUserStatus(vkId, status)` as a table effect: upsert of the status and the
      activity time; a new row takes the column defaults. */
  function StatusSet(acts: map<int, Activity>, vkId: int, status: string, now: int): (r: map<int, Activity>)
    ensures vkId in r && r[vkId].status == status && r[vkId].lastActivity == now
    ensures vkId in acts ==> r[vkId].onlineMinutes == acts[vkId].onlineMinutes && r[vkId].username == acts[vkId].username
    ensures forall k :: k != vkId ==> (k in r <==> k in acts) && (k in acts ==> r[k] == acts[k])
  {
    acts[vkId := if vkId in acts then acts[vkId].(status := status, lastActivity := now) else Activity("", status, now, 0)]
  }

  /** `updateOnlineActivity(vkId)` as a table effect: an existing row gains the whole
      minutes since its last activity; a new row starts at 0 under the employee's name
      (or ""). Either way the user is then online, and no other row changes. */
  function ActivityTouched(acts: map<int, Activity>, employees: map<int, Employee>, vkId: int, now: int): (r: map<int, Activity>)
    ensures vkId in OnlineSet(r, now)
    ensures vkId in acts ==>
              r[vkId].onlineMinutes == acts[vkId].onlineMinutes + ElapsedMinutes(acts[vkId].lastActivity, now)
              && r[vkId].username == acts[vkId].username
    ensures vkId !in acts ==>
              r[vkId].onlineMinutes == 0 && r[vkId].username == (if vkId in employees then employees[vkId].username else "")
    ensures forall k :: k != vkId ==> (k in r <==> k in acts) && (k in acts ==> r[k] == acts[k])
  {
    if vkId in acts then
      acts[vkId := acts[vkId].(status := "online", lastActivity := now,
                               onlineMinutes := acts[vkId].onlineMinutes + ElapsedMinutes(acts[vkId].lastActivity, now))]
    else
      acts[vkId := Activity(if vkId in employees then employees[vkId].username else "", "online", now, 0)]
  }

  /** `incrementMessageCount(vkId)` on day `today` as a table effect: the (user, day)
      counter grows by one or starts at 1 under the employee's name (or ""); no other
      counter changes. */
  function MessageCounted(stats: map<(int, int), DailyStat>, employees: map<int, Employee>, vkId: int, today: int)
    : (r: map<(int, int), DailyStat>)
    ensures (vkId, today) in r
    ensures r[(vkId, today)].messagesCount == if (vkId, today) in stats then stats[(vkId, today)].messagesCount + 1 else 1
    ensures forall k :: k != (vkId, today) ==> (k in r <==> k in stats) && (k in stats ==> r[k] == stats[k])
  {
    if (vkId, today) in stats then
      stats[(vkId, today) := stats[(vkId, today)].(messagesCount := stats[(vkId, today)].messagesCount + 1)]
    else
      stats[(vkId, today) := DailyStat(if vkId in employees then employees[vkId].username else "", 1)]
  }

  // ---------------------------------------------------------------------------
  // Row reads
  // ---------------------------------------------------------------------------

  /** `checkBlacklist(vkId)` at time `now`: false without a user row or without a
      date, otherwise whether the date is still ahead. */
  predicate IsBlacklisted(users: map<int, User>, vkId: int, now: int) {
    vkId in users && users[vkId].blacklistedUntil.Some? && users[vkId].blacklistedUntil.value > now
  }

  /** `createUser(vkId, username, role)` as a table effect: upsert on `vk_id` of the
      given columns; a blacklist date already stored is kept. */
  function UserCreated(users: map<int, User>, vkId: int, username: string, role: string): (r: map<int, User>)
    ensures vkId in r && r[vkId].username == username && r[vkId].role == role && r[vkId].vkId == vkId
    ensures r[vkId].blacklistedUntil == (if vkId in users then users[vkId].blacklistedUntil else None)
    ensures forall now :: IsBlacklisted(r, vkId, now) == IsBlacklisted(users, vkId, now)
    ensures forall k :: k != vkId ==> (k in r <==> k in users) && (k in users ==> r[k] == users[k])
  {
    users[vkId := User(vkId, username, role, if vkId in users then users[vkId].blacklistedUntil else None)]
  }

  /** `getUserState(vkId)`: the row, or `{ state: null, data: {} }`. */
  function StateOf(states: map<int, StateRow>, vkId: int): (r: StateView)
    ensures vkId !in states ==> r == StateView(None, EmptyData)
    ensures vkId in states ==> r == StateView(Some(states[vkId].state), states[vkId].data)
  {
    if vkId in states then StateView(Some(states[vkId].state), states[vkId].data)
    else StateView(None, EmptyData)
  }

  /** `getOrder(orderId)`; an `undefined` id matches nothing. */
  function OrderById(orders: seq<Order>, orderId: Option<int>): (r: Option<Order>)
    ensures r.Some? ==> orderId.Some? && r.value in orders && r.value.id == orderId.value
    ensures orderId.Some? && (exists k :: 0 <= k < |orders| && orders[k].id == orderId.value) ==> r.Some?
  {
    if orderId.None? then None
    else match FindOrder(orders, orderId.value)
      case Some(k) => Some(orders[k])
      case None => None
  }

  /** `getChatByPeerId(peerId)` */
  function ChatByPeer(chats: seq<Chat>, peerId: int): (r: Option<Chat>)
    ensures r.Some? <==> exists k :: 0 <= k < |chats| && chats[k].peerId == peerId
    ensures r.Some? ==> r.value in chats && r.value.peerId == peerId
  {
    match FindChat(chats, peerId)
    case Some(k) => Some(chats[k])
    case None => None
  }

  /** `getChatByType(chatType)`: `.single()` finds a row only when exactly one chat has
      that type. */
  function ChatByType(chats: seq<Chat>, chatType: string): (r: Option<Chat>)
    ensures r.Some? <==> |ChatsOfType(chats, chatType)| == 1
    ensures r.Some? ==> r.value in chats && r.value.chatType == chatType
  {
    var matches := ChatsOfType(chats, chatType);
    if |matches| == 1 then
      assert matches[0] in matches;
      Some(matches[0])
    else None
  }

  // ---------------------------------------------------------------------------
  // The store
  // ---------------------------------------------------------------------------

  class Store {
    var users: map<int, User>
    var employees: map<int, Employee>
    var categories: seq<Category>
    var products: seq<Product>
    var cart: seq<CartRow>
    var nextCartId: int
    var userStates: map<int, StateRow>
    var orders: seq<Order>
    var nextOrderId: int
    var orderItems: seq<OrderItem>
    var chats: seq<Chat>
    var dailyStats: map<(int, int), DailyStat>
    var onlineActivity: map<int, Activity>

    function Tables(): Snapshot
      reads this
    {
      Snapshot(users, employees, categories, products, cart, nextCartId, userStates,
               orders, nextOrderId, orderItems, chats, dailyStats, onlineActivity)
    }

    predicate Valid()
      reads this`categories, this`products, this`users, this`cart, this`nextCartId, this`orders, this`nextOrderId,
            this`orderItems, this`chats
    {
      && CategoriesByName(categories)
      && ProductsByName(products)
      && UsersValid(users)
      && CartValid(cart, nextCartId)
      && OrdersValid(orders, nextOrderId, orderItems)
      && ChatsValid(chats)
    }

    /** A store holding the given tables. */
    constructor(t: Snapshot)
      requires SnapshotValid(t)
      ensures Valid() && Tables() == t
    {
      users, employees, categories, products := t.users, t.employees, t.categories, t.products;
      cart, nextCartId, userStates := t.cart, t.nextCartId, t.userStates;
      orders, nextOrderId, orderItems := t.orders, t.nextOrderId, t.orderItems;
      chats, dailyStats, onlineActivity := t.chats, t.dailyStats, t.onlineActivity;
    }

    // --- users and employees ---

    /** `getUser(vkId)` */
    function GetUser(vkId: int): (r: Option<User>)
      reads this`users
      ensures r.Some? <==> vkId in users
      ensures r.Some? ==> r.value == users[vkId]
    {
      if vkId in users then Some(users[vkId]) else None
    }

    /** `getEmployee(vkId)` */
    function GetEmployee(vkId: int): Option<Employee>
      reads this`employees
    {
      if vkId in employees then Some(employees[vkId]) else None
    }

    /** `createUser(vkId, username, role)`: upsert on `vk_id` of the given columns; a
        blacklist date already stored is kept. */
    method CreateUser(vkId: int, username: string, role: string) returns (u: User)
      requires Valid()
      modifies this`users
      ensures Tables() == old(Tables()).(users := users)
      ensures Valid()
      ensures u == User(vkId, username, role, if vkId in old(users) then old(users)[vkId].blacklistedUntil else None)
      ensures users == old(users)[vkId := u] == UserCreated(old(users), vkId, username, role)
    {
      var until := if vkId in users then users[vkId].blacklistedUntil else None;
      u := User(vkId, username, role, until);
      users := users[vkId := u];
    }

    /** `checkBlacklist(vkId)` at time `now`: false without a user row or without a
        date, otherwise whether the date is still ahead. */
    predicate CheckBlacklist(vkId: int, now: int)
      reads this`users
    {
      IsBlacklisted(users, vkId, now)
    }

    /** `addToBlacklist(vkId, days)` at time `now`: an update, so it does nothing when
        there is no user row. */
    method AddToBlacklist(vkId: int, days: int, now: int)
      requires Valid()
      modifies this`users
      ensures Tables() == old(Tables()).(users := users)
      ensures Valid()
      ensures users == if vkId in old(users) then old(users)[vkId := old(users)[vkId].(blacklistedUntil := Some(now + days * DayMs))] else old(users)
      ensures days > 0 ==> (CheckBlacklist(vkId, now) <==> vkId in users)
    {
      if vkId in users {
        users := users[vkId := users[vkId].(blacklistedUntil := Some(now + days * DayMs))];
      }
    }

    // --- chats ---

    /** `getChatByPeerId(peerId)` */
    function GetChatByPeerId(peerId: int): Option<Chat>
      reads this`chats
    {
      ChatByPeer(chats, peerId)
    }

    /** `getChatByType(chatType)`: `.single()` finds a row only when exactly one chat has
        that type. */
    function GetChatByType(chatType: string): Option<Chat>
      reads this`chats
    {
      ChatByType(chats, chatType)
    }

    /** `saveChat(chatType, peerId, name)` */
    method SaveChat(chatType: string, peerId: int, name: string) returns (c: Chat)
      requires Valid()
      modifies this`chats
      ensures Tables() == old(Tables()).(chats := chats)
      ensures Valid()
      ensures c == Chat(chatType, peerId, name)
      ensures chats == ChatSaved(old(chats), c)
      ensures GetChatByPeerId(peerId) == Some(c)
    {
      c := Chat(chatType, peerId, name);
      ChatSavedEffect(chats, c);
      var k := FindChat(chats, peerId);
      if k.Some? {
        chats := chats[k.value := c];
      } else {
        chats := chats + [c];
      }
    }

    // --- catalogue ---

    /** `getCategory(id)` */
    function GetCategory(id: int): Option<Category>
      reads this`categories
    {
      FindCategory(categories, id)
    }

    /** `getProductsByCategory(categoryId)` */
    function GetProductsByCategory(categoryId: int): seq<Product>
      reads this`products
    {
      ProductsInCategory(products, categoryId)
    }

    /** `getProduct(id)`; an `undefined` id matches nothing. */
    function GetProduct(id: Option<int>): (r: Option<Product>)
      reads this`products
      ensures r.Some? ==> id.Some? && r.value in products && r.value.id == id.value
    {
      if id.None? then None else FindProduct(products, id.value)
    }

    // --- cart ---

    /** `getCartItems(vkId)` */
    function GetCartItems(vkId: int): seq<CartItem>
      reads this`cart, this`products
    {
      CartItemsOf(cart, products, vkId)
    }

    /** `addToCart(vkId, productId, quantity)`: read the (user, product) row, then
        update its quantity or insert a new row. */
    method AddToCart(vkId: int, productId: int, quantity: int)
      requires Valid()
      modifies this`cart, this`nextCartId
      ensures Tables() == old(Tables()).(cart := cart, nextCartId := nextCartId)
      ensures Valid()
      ensures cart == CartAdded(old(cart), old(nextCartId), vkId, productId, quantity)
      ensures nextCartId == if FindCartRow(old(cart), vkId, productId).None? then old(nextCartId) + 1 else old(nextCartId)
    {
      AddKeepsCartValid(cart, nextCartId, vkId, productId, quantity);
      var existing := FindCartRow(cart, vkId, productId);
      if existing.Some? {
        var row := cart[existing.value];
        cart := cart[existing.value := row.(quantity := row.quantity + quantity)];
      } else {
        cart := cart + [CartRow(nextCartId, vkId, productId, quantity)];
        nextCartId := nextCartId + 1;
      }
    }

    /** `removeFromCart(cartItemId)`: deletes the row with that cart-row id. */
    method RemoveFromCart(cartItemId: int)
      requires Valid()
      modifies this`cart
      ensures Tables() == old(Tables()).(cart := cart)
      ensures Valid()
      ensures cart == WithoutRow(old(cart), cartItemId)
    {
      WithoutRowValid(cart, nextCartId, cartItemId);
      cart := WithoutRow(cart, cartItemId);
    }

    /** `clearCart(vkId)`: deletes that user's rows. */
    method ClearCart(vkId: int)
      requires Valid()
      modifies this`cart
      ensures Tables() == old(Tables()).(cart := cart)
      ensures Valid()
      ensures cart == WithoutUser(old(cart), vkId)
      ensures GetCartItems(vkId) == []
    {
      WithoutUserValid(cart, nextCartId, vkId);
      ClearedCartItems(cart, products, vkId, vkId);
      cart := WithoutUser(cart, vkId);
    }

    // --- dialogue state ---

    /** `getUserState(vkId)`: the row, or `{ state: null, data: {} }`. */
    function GetUserState(vkId: int): StateView
      reads this`userStates
    {
      StateOf(userStates, vkId)
    }

    /** `setUserState(vkId, state, data)`: upsert on `vk_id`. */
    method SetUserState(vkId: int, state: string, data: StateData)
      modifies this`userStates
      ensures Tables() == old(Tables()).(userStates := userStates)
      ensures userStates == old(userStates)[vkId := StateRow(state, data)]
      ensures GetUserState(vkId) == StateView(Some(state), data)
    {
      userStates := userStates[vkId := StateRow(state, data)];
    }

    /** `clearUserState(vkId)` */
    method ClearUserState(vkId: int)
      modifies this`userStates
      ensures Tables() == old(Tables()).(userStates := userStates)
      ensures userStates == old(userStates) - {vkId}
      ensures GetUserState(vkId) == StateView(None, EmptyData)
    {
      userStates := userStates - {vkId};
    }

    // --- orders ---

    /** `getOrder(orderId)`; an `undefined` id matches nothing. */
    function GetOrder(orderId: Option<int>): Option<Order>
      reads this`orders
    {
      OrderById(orders, orderId)
    }

    /** `getOrderItems(orderId)` */
    function GetOrderItems(orderId: int): seq<OrderItem>
      reads this`orderItems
    {
      ItemsOfOrder(orderItems, orderId)
    }

    /** `createOrder(clientVkId, clientUsername, deliveryLocation, cartItems)`: the totals
        are summed first (which throws on an item whose product is gone, before anything
        is written), then the order row is inserted as 'pending' and one `order_items`
        row per cart item, in order. */
    method CreateOrder(clientVkId: int, clientUsername: Option<string>, deliveryLocation: Option<string>, cartItems: seq<CartItem>)
      returns (order: Order, threw: bool)
      requires Valid()
      modifies this`orders, this`nextOrderId, this`orderItems
      ensures Tables() == old(Tables()).(orders := orders, nextOrderId := nextOrderId, orderItems := orderItems)
      ensures Valid()
      ensures threw <==> !AllPriced(cartItems)
      ensures threw ==> orders == old(orders) && nextOrderId == old(nextOrderId) && orderItems == old(orderItems)
      ensures !threw ==>
                && order == NewOrder(old(nextOrderId), clientVkId, clientUsername, deliveryLocation, CartPrice(cartItems), CartCost(cartItems))
                && orders == old(orders) + [order]
                && nextOrderId == old(nextOrderId) + 1
                && orderItems == old(orderItems) + SnapshotItems(order.id, cartItems)
    {
      if !AllPriced(cartItems) {
        threw := true;
        order := NewOrder(nextOrderId, clientVkId, clientUsername, deliveryLocation, 0, 0);
        return;
      }
      threw := false;
      var totalPrice := CartPrice(cartItems);
      var totalCost := CartCost(cartItems);
      order := NewOrder(nextOrderId, clientVkId, clientUsername, deliveryLocation, totalPrice, totalCost);
      CreateOrderKeepsValid(orders, nextOrderId, orderItems, order, cartItems);
      orders := orders + [order];
      nextOrderId := nextOrderId + 1;
      InsertOrderItems(order.id, cartItems);
    }

    /** The loop of `createOrder`: one `order_items` row per cart item, in order. */
    method InsertOrderItems(orderId: int, cartItems: seq<CartItem>)
      requires AllPriced(cartItems)
      modifies this`orderItems
      ensures orderItems == old(orderItems) + SnapshotItems(orderId, cartItems)
    {
      var i := 0;
      while i < |cartItems|
        invariant 0 <= i <= |cartItems|
        invariant orderItems == old(orderItems) + SnapshotItems(orderId, cartItems[..i])
      {
        assert SnapshotItems(orderId, cartItems[..i + 1]) == SnapshotItems(orderId, cartItems[..i]) + [ItemSnapshot(orderId, cartItems[i])];
        orderItems := orderItems + [ItemSnapshot(orderId, cartItems[i])];
        i := i + 1;
      }
      assert cartItems[..|cartItems|] == cartItems;
    }

    /** `updateOrderStatus(orderId, status, courierVkId, courierUsername, estimatedTime)`
        at time `now`: the `updates` object is built column by column and applied to
        the rows with that id. */
    method UpdateOrderStatus(orderId: int, status: string, courierVkId: Option<int>, courierUsername: Option<string>,
                             estimatedTime: Option<string>, now: int)
      requires Valid()
      modifies this`orders
      ensures Tables() == old(Tables()).(orders := orders)
      ensures Valid()
      ensures orders == UpdateWhere(old(orders), orderId, StatusUpdates(status, courierVkId, courierUsername, estimatedTime, now))
    {
      var updates := OrderUpdates(status, None, None, None, None, None);
      if JsText.TruthyNum(courierVkId) {
        updates := updates.(courierVkId := courierVkId);
      }
      if JsText.Truthy(courierUsername) {
        updates := updates.(courierUsername := courierUsername);
      }
      if JsText.Truthy(estimatedTime) {
        updates := updates.(estimatedTime := estimatedTime);
      }
      if status == "accepted" {
        updates := updates.(acceptedAt := Some(now));
      }
      if status == "completed" {
        updates := updates.(completedAt := Some(now));
      }
      UpdateKeepsOrdersValid(orders, nextOrderId, orderItems, orderId, updates);
      orders := UpdateWhere(orders, orderId, updates);
    }

    /** `cancelOrder(orderId)`: only the status column of that order. */
    method CancelOrder(orderId: int)
      requires Valid()
      modifies this`orders
      ensures Tables() == old(Tables()).(orders := orders)
      ensures Valid()
      ensures orders == UpdateWhere(old(orders), orderId, OrderUpdates("cancelled", None, None, None, None, None))
    {
      UpdateKeepsOrdersValid(orders, nextOrderId, orderItems, orderId, OrderUpdates("cancelled", None, None, None, None, None));
      orders := UpdateWhere(orders, orderId, OrderUpdates("cancelled", None, None, None, None, None));
    }

    // --- activity and statistics ---

    /** `getOnlineUsers()` at time `now`: status 'online' and active in the last five
        minutes. */
    function OnlineUsers(now: int): set<int>
      reads this`onlineActivity
    {
      OnlineSet(onlineActivity, now)
    }

    /** `setUserStatus(vkId, status)` at time `now`: upsert of the status and the
        activity time; a new row takes the column defaults. */
    method SetUserStatus(vkId: int, status: string, now: int)
      modifies this`onlineActivity
      ensures Tables() == old(Tables()).(onlineActivity := onlineActivity)
      ensures onlineActivity == StatusSet(old(onlineActivity), vkId, status, now)
    {
      var row := if vkId in onlineActivity then onlineActivity[vkId].(status := status, lastActivity := now)
                 else Activity("", status, now, 0);
      onlineActivity := onlineActivity[vkId := row];
    }

    /** `updateOnlineActivity(vkId)` at time `now`: an existing row gains the whole
        minutes since its last activity; a new row starts at 0 under the employee's
        name (or ""). Either way the user is then online. */
    method UpdateOnlineActivity(vkId: int, now: int)
      modifies this`onlineActivity
      ensures Tables() == old(Tables()).(onlineActivity := onlineActivity)
      ensures onlineActivity == ActivityTouched(old(onlineActivity), employees, vkId, now)
      ensures vkId in OnlineUsers(now)
    {
      if vkId in onlineActivity {
        var existing := onlineActivity[vkId];
        var minutesElapsed := ElapsedMinutes(existing.lastActivity, now);
        onlineActivity := onlineActivity[vkId := existing.(status := "online", lastActivity := now,
                                                          onlineMinutes := existing.onlineMinutes + minutesElapsed)];
      } else {
        var employee := GetEmployee(vkId);
        var username := if employee.Some? then employee.value.username else "";
        onlineActivity := onlineActivity[vkId := Activity(username, "online", now, 0)];
      }
    }

    /** `incrementMessageCount(vkId)` on day `today`: the (user, day) counter grows by
        one, or starts at 1 under the employee's name (or ""). */
    method IncrementMessageCount(vkId: int, today: int)
      modifies this`dailyStats
      ensures Tables() == old(Tables()).(dailyStats := dailyStats)
      ensures dailyStats == MessageCounted(old(dailyStats), employees, vkId, today)
    {
      if (vkId, today) in dailyStats {
        var existing := dailyStats[(vkId, today)];
        dailyStats := dailyStats[(vkId, today) := existing.(messagesCount := existing.messagesCount + 1)];
      } else {
        var employee := GetEmployee(vkId);
        var username := if employee.Some? then employee.value.username else "";
        dailyStats := dailyStats[(vkId, today) := DailyStat(username, 1)];
      }
    }
  }

  /** Under the store's invariant, the income that finance reports sum over the order
      items equals the sum of the orders' stored totals. */
  lemma {:induction false} IncomeMatchesStoredTotals(orders: seq<Order>, items: seq<OrderItem>)
    requires forall i :: 0 <= i < |orders| ==> Priced(orders[i], items)
    ensures Helpers.IncomeOf(orders, items) == TotalPrices(orders)
  {
    if orders != [] {
      var front := orders[..|orders| - 1];
      assert Priced(orders[|orders| - 1], items);
      IncomeMatchesStoredTotals(front, items);
    }
  }
}
