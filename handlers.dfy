/** The event handlers of `lib/vk-handlers.js`.

    Each handler is modelled twice, as the source's structure asks: a function on a
    `World` (the tables, the timer map and the messages sent so far) that says what the
    handler does to it, and a method of the class `Bot` that performs the same steps
    on the store, the outbox and its timer map and is proved to leave the world the
    function describes. The properties the bot promises are stated as lemmas about the
    functions (module HandlerProperties). */
module Handlers {
  import opened Options
  import opened Tables
  import opened Database
  import opened Keyboards
  import opened VkApi
  import Helpers
  import JsText
  import Admin

  /** An entry of `orderTimers`: the `setTimeout` handle has not run yet, or has run
      (its callback does not remove the entry). */
  datatype TimerState = Armed | Fired

  /** What one event can change: the tables, the `orderTimers` map and the messages
      sent so far. */
  datatype World = World(t: Snapshot, timers: map<int, TimerState>, sent: seq<Sent>)

  /** The world when a handler returns or throws, and whether it threw. */
  datatype Outcome = Outcome(w: World, threw: bool)

  /** A `message_new` object: `peer_id`, `from_id`, `text`, the decoded `payload` (`{}`
      when absent) and whether `reply_message` is present. */
  datatype Message = Message(peerId: int, fromId: int, text: Option<string>, payload: Payload, hasReply: bool)

  /** What the handlers read from outside the message: the clock in milliseconds, the
      current day, and what `getConversationMembers` answers for the message's peer. */
  datatype Env = Env(now: int, today: int, conversation: Option<Conversation>)

  // ---------------------------------------------------------------------------
  // Effects on a world
  // ---------------------------------------------------------------------------

  /** `sendMessage(peer, …, keyboard)` */
  function Say(w: World, peer: int, kind: Kind, kb: Option<Keyboard>): World {
    w.(sent := w.sent + [Sent(Some(peer), kind, kb)])
  }

  /** A message with the main-menu keyboard. */
  function Menu(w: World, peer: int, kind: Kind): World {
    Say(w, peer, kind, Some(MainMenuKeyboard()))
  }

  /** `setUserState(vkId, state, data)` */
  function PutState(w: World, vkId: int, state: string, data: StateData): World {
    w.(t := w.t.(userStates := w.t.userStates[vkId := StateRow(state, data)]))
  }

  /** `clearUserState(vkId)` */
  function DropState(w: World, vkId: int): World {
    w.(t := w.t.(userStates := w.t.userStates - {vkId}))
  }

  /** `clearUserState(vkId)` and a message with the main-menu keyboard. */
  function Reset(w: World, vkId: int, kind: Kind): World {
    Menu(DropState(w, vkId), vkId, kind)
  }

  /** `getCartItems(vkId)` */
  function CartOf(w: World, vkId: int): seq<CartItem> {
    CartItemsOf(w.t.cart, w.t.products, vkId)
  }

  /** `addToCart(vkId, productId, quantity)` */
  function AddedToCartTables(t: Snapshot, vkId: int, productId: int, quantity: int): Snapshot {
    t.(cart := CartAdded(t.cart, t.nextCartId, vkId, productId, quantity),
       nextCartId := if FindCartRow(t.cart, vkId, productId).None? then t.nextCartId + 1 else t.nextCartId)
  }

  /** `getEmployee(vkId)` */
  function EmployeeOf(t: Snapshot, vkId: int): Option<Employee> {
    if vkId in t.employees then Some(t.employees[vkId]) else None
  }

  // ---------------------------------------------------------------------------
  // Catalogue, cart and orders list
  // ---------------------------------------------------------------------------

  /** `showCatalog(userId)` */
  function CatalogStep(w: World, userId: int): World {
    if w.t.categories == [] then Say(w, userId, CatalogEmpty, Some(BackButton("main_menu")))
    else Say(w, userId, Catalog, Some(CategoriesLayout(w.t.categories, "main_menu")))
  }

  /** `startOrder(userId)` */
  function StartOrderStep(w: World, userId: int): World {
    if w.t.categories == [] then Menu(w, userId, GoodsUnavailable)
    else PutState(Say(w, userId, ChooseCategory, Some(CategoriesLayout(w.t.categories, "order"))),
                  userId, "selecting_category", EmptyData)
  }

  /** `showCart(userId)`; the cart lines and the total are part of the text. */
  function ShowCartStep(w: World, userId: int): World {
    if CartOf(w, userId) == [] then Menu(w, userId, CartEmptyHint)
    else Say(w, userId, CartContents, Some(CartKeyboard()))
  }

  predicate ActiveStatus(status: string) {
    status == "pending" || status == "accepted" || status == "preparing" || status == "delivering"
  }

  /** The client's orders with an active status, in table (creation) order. */
  function ActiveOrdersOf(orders: seq<Order>, client: int): (r: seq<Order>)
    ensures forall o :: o in r <==> o in orders && o.clientVkId == client && ActiveStatus(o.status)
  {
    if orders == [] then []
    else
      var rest := ActiveOrdersOf(orders[1..], client);
      assert forall o :: o in orders <==> o == orders[0] || o in orders[1..] by {
        assert orders == [orders[0]] + orders[1..];
      }
      if orders[0].clientVkId == client && ActiveStatus(orders[0].status) then [orders[0]] + rest else rest
  }

  /** A sequence read from its end. */
  function Reversed<T>(s: seq<T>): (r: seq<T>)
    ensures |r| == |s|
    ensures forall k :: 0 <= k < |s| ==> r[k] == s[|s| - 1 - k]
  {
    if s == [] then [] else [s[|s| - 1]] + Reversed(s[..|s| - 1])
  }

  /** Filtering a longer table keeps the filtered prefix and adds the new row when it
      qualifies. */
  lemma {:induction false} ActiveOrdersOfSnoc(front: seq<Order>, last: Order, client: int)
    ensures ActiveOrdersOf(front + [last], client)
         == ActiveOrdersOf(front, client)
            + (if last.clientVkId == client && ActiveStatus(last.status) then [last] else [])
  {
    if front != [] {
      assert (front + [last])[1..] == front[1..] + [last];
      ActiveOrdersOfSnoc(front[1..], last, client);
    } else {
      assert [] + [last] == [last];
    }
  }

  /** The client's orders with an active status, newest first: the table keeps orders
      in the order they were created, so this is the table-order filter read backwards. */
  function ActiveOrdersNewestFirst(orders: seq<Order>, client: int): (r: seq<Order>)
    ensures r == Reversed(ActiveOrdersOf(orders, client))
    ensures forall o :: o in r <==> o in orders && o.clientVkId == client && ActiveStatus(o.status)
  {
    if orders == [] then []
    else
      var last := orders[|orders| - 1];
      var front := orders[..|orders| - 1];
      var rest := ActiveOrdersNewestFirst(front, client);
      assert orders == front + [last];
      ActiveOrdersOfSnoc(front, last, client);
      var all := ActiveOrdersOf(orders, client);
      assert forall o :: o in orders <==> o in front || o == last;
      if last.clientVkId == client && ActiveStatus(last.status) then
        assert all[..|all| - 1] == ActiveOrdersOf(front, client);
        [last] + rest
      else rest
  }

  /** The ids of some orders, in order. */
  function OrderIds(os: seq<Order>): (ids: seq<int>)
    ensures |ids| == |os|
    ensures forall k :: 0 <= k < |os| ==> ids[k] == os[k].id
  {
    if os == [] then [] else [os[0].id] + OrderIds(os[1..])
  }

  /** `.limit(5)`: the first five rows, or all of them when there are fewer. */
  function FirstFive(r: seq<Order>): (top: seq<Order>)
    ensures |top| == (if |r| <= 5 then |r| else 5)
    ensures forall k :: 0 <= k < |top| ==> top[k] == r[k]
  {
    if |r| <= 5 then r else r[..5]
  }

  /** The ids `showMyOrders` lists: the first five of the client's active orders, newest
      first (all of them when there are no more than five), and none exactly when the
      client has no active order. */
  function MyOrderIds(orders: seq<Order>, client: int): (ids: seq<int>)
    ensures var r := ActiveOrdersNewestFirst(orders, client);
            && |ids| == (if |r| <= 5 then |r| else 5)
            && forall k :: 0 <= k < |ids| ==> ids[k] == r[k].id
    ensures |ids| <= 5
    ensures forall k :: 0 <= k < |ids| ==>
              exists o :: o in orders && o.id == ids[k] && o.clientVkId == client && ActiveStatus(o.status)
    ensures |ActiveOrdersNewestFirst(orders, client)| <= 5 ==>
              forall o :: o in orders && o.clientVkId == client && ActiveStatus(o.status) ==> o.id in ids
    ensures ids == [] <==> forall o :: o in orders ==> !(o.clientVkId == client && ActiveStatus(o.status))
  {
    var r := ActiveOrdersNewestFirst(orders, client);
    var top := FirstFive(r);
    var ids := OrderIds(top);
    MyOrderIdsFacts(orders, client, r, ids);
    ids
  }

  /** The facts `MyOrderIds` promises, from the first five newest active orders. */
  lemma MyOrderIdsFacts(orders: seq<Order>, client: int, r: seq<Order>, ids: seq<int>)
    requires forall o :: o in r <==> o in orders && o.clientVkId == client && ActiveStatus(o.status)
    requires |ids| == (if |r| <= 5 then |r| else 5)
    requires forall k :: 0 <= k < |ids| ==> ids[k] == r[k].id
    ensures forall k :: 0 <= k < |ids| ==>
              exists o :: o in orders && o.id == ids[k] && o.clientVkId == client && ActiveStatus(o.status)
    ensures |r| <= 5 ==> forall o :: o in orders && o.clientVkId == client && ActiveStatus(o.status) ==> o.id in ids
    ensures ids == [] <==> forall o :: o in orders ==> !(o.clientVkId == client && ActiveStatus(o.status))
  {
    forall k | 0 <= k < |ids|
      ensures exists o :: o in orders && o.id == ids[k] && o.clientVkId == client && ActiveStatus(o.status)
    {
      assert r[k] in r;
    }
    if |r| <= 5 {
      forall o | o in orders && o.clientVkId == client && ActiveStatus(o.status) ensures o.id in ids {
        var k :| 0 <= k < |r| && r[k] == o;
        assert ids[k] == o.id;
      }
    }
    if r != [] {
      assert r[0] in r;
    }
  }

  /** `showMyOrders(userId)` */
  function ShowMyOrdersStep(w: World, userId: int): World {
    var ids := MyOrderIds(w.t.orders, userId);
    if ids == [] then Menu(w, userId, NoActiveOrders) else Menu(w, userId, MyOrders(ids))
  }

  /** `showCategoryProducts(userId, categoryId)` on page 0: reading the name of a
      category that has products but no row throws. */
  function CategoryProductsStep(w: World, userId: int, categoryId: int): Outcome {
    var products := ProductsInCategory(w.t.products, categoryId);
    if products == [] then Outcome(Say(w, userId, NoProductsInCategory, Some(BackButton("main_menu"))), false)
    else if FindCategory(w.t.categories, categoryId).None? then Outcome(w, true)
    else Outcome(Say(w, userId, CategoryProducts(categoryId), Some(ProductsLayout(products, 0, categoryId, 5))), false)
  }

  /** `handleProductSelection(userId, productId)` */
  function ProductSelectionStep(w: World, userId: int, productId: Option<int>): World {
    if productId.None? || FindProduct(w.t.products, productId.value).None? then Menu(w, userId, ProductNotFound)
    else Say(w.(t := AddedToCartTables(w.t, userId, productId.value, 1)), userId, AddedToCart(productId.value),
             Some(CartActionsKeyboard()))
  }

  // ---------------------------------------------------------------------------
  // Checkout and orders
  // ---------------------------------------------------------------------------

  /** `startCheckout(userId)` */
  function StartCheckoutStep(w: World, userId: int): World {
    if CartOf(w, userId) == [] then Menu(w, userId, CartIsEmpty)
    else PutState(Say(w, userId, AskUsername, None), userId, "entering_username", EmptyData)
  }

  /** `confirmOrder(userId, username, location)` */
  function ConfirmOrderStep(w: World, userId: int, username: Option<string>, location: string): World {
    if CartOf(w, userId) == [] then Reset(w, userId, CartIsEmpty)
    else PutState(Say(w, userId, ConfirmOrder, Some(ConfirmOrderKeyboard())), userId, "confirming_order",
                  EmptyData.(username := username, location := Some(location)))
  }

  /** The tables once `createOrder` has written `order` and one item per cart line. */
  function OrderCreatedTables(t: Snapshot, order: Order, cart: seq<CartItem>): Snapshot
    requires AllPriced(cart)
  {
    t.(orders := t.orders + [order], nextOrderId := t.nextOrderId + 1,
       orderItems := t.orderItems + SnapshotItems(order.id, cart))
  }

  /** What `placeOrder` does once the order exists: the cart is emptied, the dialogue
      reset and the client told the order number. */
  function OrderConfirmedStep(w: World, userId: int, orderId: int): World {
    Reset(w.(t := w.t.(cart := WithoutUser(w.t.cart, userId))), userId, OrderPlaced(orderId))
  }

  /** `placeOrder(userId, username, location)`: `createOrder` throws before writing
      anything when a cart item's product is gone. */
  function PlaceOrderStep(w: World, userId: int, username: Option<string>, location: Option<string>): Outcome {
    var cart := CartOf(w, userId);
    if cart == [] then Outcome(Reset(w, userId, CartIsEmpty), false)
    else if !AllPriced(cart) then Outcome(w, true)
    else
      var order := NewOrder(w.t.nextOrderId, userId, username, location, CartPrice(cart), CartCost(cart));
      var created := w.(t := OrderCreatedTables(w.t, order, cart));
      Outcome(DispatchStep(OrderConfirmedStep(created, userId, order.id), order.id), false)
  }

  /** `sendOrderToDispatch(order)`: only with a dispatch chat, which gets the order
      with its accept button, and then the order's timer is armed. */
  function DispatchStep(w: World, orderId: int): World {
    match ChatByType(w.t.chats, "dispatch")
    case None => w
    case Some(chat) =>
      Say(w, chat.peerId, NewOrderForDispatch(orderId), Some(AcceptOrderKeyboard(orderId))).(timers := w.timers[orderId := Armed])
  }

  /** `handleOrderTimeout(orderId)`: only a pending order's client is asked again. */
  function OrderTimeoutStep(w: World, orderId: Option<int>): World {
    match OrderById(w.t.orders, orderId)
    case None => w
    case Some(order) =>
      if order.status != "pending" then w
      else PutState(Say(w, order.clientVkId, StillRelevant(order.id), Some(ConfirmOrderKeyboard())),
                    order.clientVkId, "confirming_order_relevance", EmptyData.(orderId := orderId))
  }

  /** The callback of an order's timer. */
  function TimerFiredStep(w: World, orderId: int): World {
    OrderTimeoutStep(w.(timers := w.timers[orderId := Fired]), Some(orderId))
  }

  /** `handleAcceptOrder(orderId, courierVkId)`: the order stays 'pending'. */
  function AcceptOrderStep(w: World, orderId: Option<int>, courierVkId: int): World {
    match OrderById(w.t.orders, orderId)
    case None => Say(w, courierVkId, OrderUnavailable, None)
    case Some(order) =>
      if order.status != "pending" then Say(w, courierVkId, OrderUnavailable, None)
      else
        var untimed := w.(timers := w.timers - {order.id});
        if EmployeeOf(w.t, courierVkId).None? then Say(untimed, courierVkId, CourierNotFound, None)
        else PutState(Say(untimed, courierVkId, AskDeliveryTime(order.id), None), courierVkId,
                      "entering_delivery_time", EmptyData.(orderId := orderId))
  }

  /** One line of the courier's shopping list. */
  function ShoppingLine(it: OrderItem): string {
    it.productName + " x" + JsText.IntToString(it.quantity) + "\n"
  }

  function ShoppingLines(items: seq<OrderItem>): string {
    if items == [] then "" else ShoppingLines(items[..|items| - 1]) + ShoppingLine(items[|items| - 1])
  }

  /** `handleDeliveryTimeEntered(courierVkId, orderId, deliveryTime)`: the order is
      accepted and the courier's state cleared before `courier.username` is read, which
      throws when the courier has no `employees` row. */
  function DeliveryTimeStep(w: World, courierVkId: int, orderId: int, deliveryTime: string, now: int): Outcome {
    match OrderById(w.t.orders, Some(orderId))
    case None => Outcome(Say(w, courierVkId, OrderNotFound, None), false)
    case Some(order) =>
      var courier := EmployeeOf(w.t, courierVkId);
      var updates := StatusUpdates("accepted", Some(courierVkId), if courier.Some? then Some(courier.value.username) else None,
                                   Some(deliveryTime), now);
      var cleared := DropState(w.(t := w.t.(orders := UpdateWhere(w.t.orders, orderId, updates))), courierVkId);
      if courier.None? then Outcome(cleared, true)
      else
        var told := Say(cleared, order.clientVkId, CourierAssigned(courier.value.username, deliveryTime), None);
        Outcome(Say(told, courierVkId, ShoppingList(orderId, ShoppingLines(ItemsOfOrder(w.t.orderItems, orderId))),
                    Some(CourierOrderKeyboard(orderId))), false)
  }

  // ---------------------------------------------------------------------------
  // Private messages
  // ---------------------------------------------------------------------------

  /** The 'remove_from_cart' action: `removeFromCart` deletes by cart-row id and is
      given the user id; then the cart is shown again. */
  function CartRowRemovedStep(w: World, userId: int): World {
    ShowCartStep(w.(t := w.t.(cart := WithoutRow(w.t.cart, userId))), userId)
  }

  /** The 'clear_cart' action. */
  function CartClearedStep(w: World, userId: int): World {
    Menu(w.(t := w.t.(cart := WithoutUser(w.t.cart, userId))), userId, CartCleared)
  }

  /** `handlePayloadAction(userId, payload)` */
  function PayloadActionStep(w: World, userId: int, payload: Payload): Outcome {
    var action := payload.action;
    if action == Some("add_to_cart") then Outcome(ProductSelectionStep(w, userId, payload.product_id), false)
    else if action == Some("remove_from_cart") then Outcome(CartRowRemovedStep(w, userId), false)
    else if action == Some("clear_cart") then Outcome(CartClearedStep(w, userId), false)
    else if action == Some("checkout") then Outcome(StartCheckoutStep(w, userId), false)
    else if action == Some("confirm_order") then
      // getUserState always returns an object, so its `data` is always read
      var data := StateOf(w.t.userStates, userId).data;
      PlaceOrderStep(w, userId, data.username, data.location)
    else if action == Some("cancel_order") then Outcome(Reset(w, userId, OrderCancelled), false)
    else Outcome(w, false)
  }

  /** A category chosen in 'selecting_category': its products are shown and, unless
      that threw, the state moves to 'selecting_product'. */
  function CategorySelectedStep(w: World, userId: int, categoryId: int): Outcome {
    var shown := CategoryProductsStep(w, userId, categoryId);
    if shown.threw then shown
    else Outcome(PutState(shown.w, userId, "selecting_product", EmptyData.(categoryId := Some(categoryId))), false)
  }

  /** The name entered in 'entering_username' is kept whatever it is, and the location
      is asked for. */
  function UsernameEnteredStep(w: World, userId: int, text: string, data: StateData): World {
    Say(PutState(w, userId, "entering_location", data.(username := Some(text))), userId, AskLocation, None)
  }

  /** The two confirmations the dialogue accepts. */
  predicate IsYes(text: string) {
    JsText.ToLower(text) == "да" || JsText.ToLower(text) == "подтвердить"
  }

  /** `handleUserState(userId, text, payload, state)` for a stored state named
      `stateName` with data `data`. The validators return an object, which is always
      truthy, so the re-prompts after them are never sent. */
  function UserStateStep(w: World, userId: int, text: string, payload: Payload, stateName: string, data: StateData, now: int)
    : Outcome
  {
    if stateName == "entering_delivery_time" then
      if text != "" && JsText.TruthyNum(data.orderId) then DeliveryTimeStep(w, userId, data.orderId.value, text, now)
      else Outcome(w, false)
    else if stateName == "selecting_category" then
      var categoryId := if JsText.TruthyNum(payload.category_id) then payload.category_id else JsText.ParseInt(text);
      if !JsText.TruthyNum(categoryId) then Outcome(w, false) else CategorySelectedStep(w, userId, categoryId.value)
    else if stateName == "entering_username" then Outcome(UsernameEnteredStep(w, userId, text, data), false)
    else if stateName == "entering_location" then
      Outcome(ConfirmOrderStep(w, userId, data.username, text), false)
    else if stateName == "confirming_order" || stateName == "confirming_order_relevance" then
      AnsweredStep(w, userId, text, stateName == "confirming_order_relevance", data)
    else Outcome(Reset(w, userId, UnknownState), false)
  }

  /** The two yes-or-no states, 'confirming_order' and (`relevance`)
      'confirming_order_relevance': a confirmation places the order or asks again
      whether it is still wanted; any other answer cancels. */
  function AnsweredStep(w: World, userId: int, text: string, relevance: bool, data: StateData): Outcome {
    if !IsYes(text) then Outcome(Reset(w, userId, OrderCancelled), false)
    else if relevance then Outcome(OrderTimeoutStep(w, data.orderId), false)
    else PlaceOrderStep(w, userId, data.username, data.location)
  }

  /** The words that return to the main menu from any state. */
  predicate IsStartWord(command: string) {
    command == "начать" || command == "/start" || command == "start" || command == "main_menu"
  }

  /** The `switch (command)` of `handlePrivateMessage`. */
  function CommandStep(w: World, userId: int, command: string): World {
    if command == "catalog" then CatalogStep(w, userId)
    else if command == "order" then StartOrderStep(w, userId)
    else if command == "employment" then Say(w, userId, Employment, Some(BackButton("main_menu")))
    else if command == "faq" then Say(w, userId, Faq, Some(BackButton("main_menu")))
    else if command == "my_orders" then ShowMyOrdersStep(w, userId)
    else if command == "view_cart" then ShowCartStep(w, userId)
    else if command == "back" then Menu(w, userId, MainMenu)
    else Menu(w, userId, UnknownCommand)
  }

  /** `payload.command || text.toLowerCase()` */
  function CommandOf(text: string, payload: Payload): string {
    if JsText.Truthy(payload.command) then payload.command.value else JsText.ToLower(text)
  }

  /** `handlePrivateMessage(userId, text, payload)` */
  function PrivateStep(w: World, userId: int, text: string, payload: Payload, now: int): Outcome {
    var command := CommandOf(text, payload);
    if userId !in w.t.users then
      Outcome(Menu(w.(t := w.t.(users := UserCreated(w.t.users, userId, "", "client"))), userId, Welcome), false)
    else if IsStartWord(command) then Outcome(Reset(w, userId, MainMenu), false)
    else RouteStep(w, userId, text, payload, command, now)
  }

  /** The rest of `handlePrivateMessage` for a known user: the payload's category,
      product and action, in that order, then the stored dialogue state, then the
      command. */
  function RouteStep(w: World, userId: int, text: string, payload: Payload, command: string, now: int): Outcome {
    if JsText.TruthyNum(payload.category_id) then CategoryProductsStep(w, userId, payload.category_id.value)
    else if JsText.TruthyNum(payload.product_id) then Outcome(ProductSelectionStep(w, userId, payload.product_id), false)
    else if JsText.Truthy(payload.action) then PayloadActionStep(w, userId, payload)
    else
      var state := StateOf(w.t.userStates, userId);
      if JsText.Truthy(state.state) then UserStateStep(w, userId, text, payload, state.state.value, state.data, now)
      else Outcome(CommandStep(w, userId, command), false)
  }

  // ---------------------------------------------------------------------------
  // Group chats
  // ---------------------------------------------------------------------------

  /** The chat role a title names: the first of the seven substrings it contains, in
      the order they are tested. */
  function ChatTypeOfTitle(title: string): (r: Option<string>)
    ensures r == Some("management") <==> JsText.Includes(title, "Руководство")
    ensures r == Some("flood") <==> !JsText.Includes(title, "Руководство") && JsText.Includes(title, "Флудилка")
    ensures r == Some("dispatch") <==>
              && !JsText.Includes(title, "Руководство") && !JsText.Includes(title, "Флудилка")
              && JsText.Includes(title, "Диспетчерская")
    ensures r == Some("announcements") <==>
              && !JsText.Includes(title, "Руководство") && !JsText.Includes(title, "Флудилка")
              && !JsText.Includes(title, "Диспетчерская") && JsText.Includes(title, "Доска объявлений")
    ensures r == Some("senior_staff") <==>
              && !JsText.Includes(title, "Руководство") && !JsText.Includes(title, "Флудилка")
              && !JsText.Includes(title, "Диспетчерская") && !JsText.Includes(title, "Доска объявлений")
              && JsText.Includes(title, "Старший состав")
    ensures r == Some("training") <==>
              && !JsText.Includes(title, "Руководство") && !JsText.Includes(title, "Флудилка")
              && !JsText.Includes(title, "Диспетчерская") && !JsText.Includes(title, "Доска объявлений")
              && !JsText.Includes(title, "Старший состав") && JsText.Includes(title, "Учебный центр")
    ensures r == Some("activity_log") <==>
              && !JsText.Includes(title, "Руководство") && !JsText.Includes(title, "Флудилка")
              && !JsText.Includes(title, "Диспетчерская") && !JsText.Includes(title, "Доска объявлений")
              && !JsText.Includes(title, "Старший состав") && !JsText.Includes(title, "Учебный центр")
              && JsText.Includes(title, "Журнал активности")
    ensures r.Some? ==> r.value in Helpers.ChatTypes
    ensures r.None? <==>
              && !JsText.Includes(title, "Руководство") && !JsText.Includes(title, "Флудилка")
              && !JsText.Includes(title, "Диспетчерская") && !JsText.Includes(title, "Доска объявлений")
              && !JsText.Includes(title, "Старший состав") && !JsText.Includes(title, "Учебный центр")
              && !JsText.Includes(title, "Журнал активности")
  {
    if JsText.Includes(title, "Руководство") then Some("management")
    else if JsText.Includes(title, "Флудилка") then Some("flood")
    else if JsText.Includes(title, "Диспетчерская") then Some("dispatch")
    else if JsText.Includes(title, "Доска объявлений") then Some("announcements")
    else if JsText.Includes(title, "Старший состав") then Some("senior_staff")
    else if JsText.Includes(title, "Учебный центр") then Some("training")
    else if JsText.Includes(title, "Журнал активности") then Some("activity_log")
    else None
  }

  /** The title `tryRegisterChat` reads: `info?.title || ''`. */
  function TitleOf(conversation: Option<Conversation>): string {
    var info := ConversationTitle(conversation);
    if JsText.Truthy(info) then info.value else ""
  }

  /** `tryRegisterChat(peerId)`. The notices go to `config.vk.adminUserId`, which the
      configuration does not define, so their peer is `undefined`. */
  function RegisterChatStep(w: World, peerId: int, conversation: Option<Conversation>): World {
    var title := TitleOf(conversation);
    match ChatTypeOfTitle(title)
    case None => w
    case Some(chatType) =>
      var saved := w.(t := w.t.(chats := ChatSaved(w.t.chats, Chat(chatType, peerId, title))));
      var told := saved.(sent := saved.sent + [Sent(None, ChatRegistered(title, peerId, chatType), None)]);
      if |saved.t.chats| >= 7 then told.(sent := told.sent + [Sent(None, AllChatsRegistered, None)]) else told
  }

  /** The activity-log commands. `formatOnlineUsers` is handed the statistics object
      where it expects an array and calls `find` on it, which throws as soon as anyone
      is online. */
  function ActivityLogStep(w: World, peerId: int, userId: int, username: string, text: string, now: int): Outcome {
    if text == "!онлайн" then
      if OnlineSet(w.t.onlineActivity, now) == {} then Outcome(Say(w, peerId, NobodyOnline, None), false)
      else Outcome(w, true)
    else if text == "!афк" then
      Outcome(Say(w.(t := w.t.(onlineActivity := StatusSet(w.t.onlineActivity, userId, "afk", now))), peerId, MarkedAfk(username), None), false)
    else if text == "!вышел" then
      Outcome(Say(w.(t := w.t.(onlineActivity := StatusSet(w.t.onlineActivity, userId, "offline", now))), peerId, MarkedOffline(username), None), false)
    else Outcome(w, false)
  }

  /** A recognised admin command's reply: the state it stores and the message. */
  function Replied(w: World, peer: Option<int>, userId: int, reply: Admin.Reply): World {
    w.(t := w.t.(userStates := Admin.WithState(w.t.userStates, userId, reply.state)),
       sent := w.sent + [Sent(peer, reply.kind, None)])
  }

  /** `admin.handleSeniorCommands(message, userId)` */
  function SeniorStep(w: World, message: Admin.AdminMessage, userId: int): World {
    var reply := Admin.SeniorReply(Admin.SeniorCommandOf(Admin.CommandText(message)));
    if userId in w.t.users && Helpers.HasPermission(w.t.users[userId].role, "senior") && reply.Some? then
      Replied(w, Admin.PeerOf(message), userId, reply.value)
    else w
  }

  /** `admin.handleManagementCommands(message, userId)` */
  function ManagementStep(w: World, message: Admin.AdminMessage, userId: int): Outcome {
    if !(userId in w.t.users && w.t.users[userId].role == "management") then Outcome(w, false)
    else match Admin.CommandText(message)
      case None => Outcome(w, true)
      case Some(text) =>
        var reply := Admin.ManagementReply(Admin.ManagementCommandOf(text), w.t.categories, w.t.products);
        if reply.None? then Outcome(w, false) else Outcome(Replied(w, Admin.PeerOf(message), userId, reply.value), false)
  }

  /** `admin.handlePostCommand(message, userId)` */
  function PostStep(w: World, message: Admin.AdminMessage, userId: int): World {
    if Admin.HasReply(message) && userId in w.t.users && Helpers.HasPermission(w.t.users[userId].role, "senior") then
      w.(sent := w.sent + [Sent(Admin.PeerOf(message), PostPublished, None)])
    else w
  }

  /** The commands of a registered chat, after the activity counters are updated. */
  function ChatCommandStep(w: World, chatType: string, peerId: int, userId: int, employee: Employee, text: string,
                           payload: Payload, message: Message, now: int): Outcome
  {
    if chatType == "activity_log" then ActivityLogStep(w, peerId, userId, employee.username, text, now)
    else if JsText.StartsWith(text, "!стата") then Outcome(Say(w, peerId, UserStats(employee.username), None), false)
    else if text == "!беседы" then
      Outcome(if w.t.chats == [] then Say(w, userId, NoChatsRegistered, None) else Say(w, userId, ChatList(|w.t.chats|), None), false)
    else if chatType == "senior_staff" then
      // the handler is given the text where it expects the message object
      Outcome(if JsText.StartsWith(text, "!") then SeniorStep(w, Admin.TextArgument(text), userId) else w, false)
    else if chatType == "management" then
      if JsText.StartsWith(text, "!") then ManagementStep(w, Admin.TextArgument(text), userId) else Outcome(w, false)
    else if JsText.StartsWith(text, "!пост") && message.hasReply && employee.role == "management" then
      Outcome(PostStep(w, Admin.MessageObject(message.text, peerId, message.hasReply), userId), false)
    else if chatType == "dispatch" && payload.action == Some("accept_order") then
      Outcome(AcceptOrderStep(w, payload.order_id, userId), false)
    else Outcome(w, false)
  }

  /** `incrementMessageCount` and `updateOnlineActivity` for an employee's message. */
  function ActivityRecorded(w: World, userId: int, env: Env): World {
    w.(t := w.t.(dailyStats := MessageCounted(w.t.dailyStats, w.t.employees, userId, env.today),
                 onlineActivity := ActivityTouched(w.t.onlineActivity, w.t.employees, userId, env.now)))
  }

  /** `handleChatMessage(peerId, userId, text, payload, message)` */
  function ChatStep(w: World, peerId: int, userId: int, text: string, payload: Payload, message: Message, env: Env): Outcome {
    match ChatByPeer(w.t.chats, peerId)
    case None => Outcome(RegisterChatStep(w, peerId, env.conversation), false)
    case Some(chat) =>
      match EmployeeOf(w.t, userId)
      case None => Outcome(w, false)
      case Some(employee) =>
        ChatCommandStep(ActivityRecorded(w, userId, env), chat.chatType, peerId, userId, employee, text, payload, message, env.now)
  }

  /** `message.text?.trim() || ''` */
  function TextOf(m: Message): string {
    if m.text.Some? then JsText.Trim(m.text.value) else ""
  }

  /** `handleVKMessage(message)` */
  function HandleVKMessageStep(w: World, m: Message, env: Env): Outcome {
    if IsBlacklisted(w.t.users, m.fromId, env.now) then Outcome(Say(w, m.fromId, Blacklisted, None), false)
    else if m.peerId == m.fromId then PrivateStep(w, m.fromId, TextOf(m), m.payload, env.now)
    else ChatStep(w, m.peerId, m.fromId, TextOf(m), m.payload, m, env)
  }

  // ---------------------------------------------------------------------------
  // The bot
  // ---------------------------------------------------------------------------

  /** The module-level state of `lib/vk-handlers.js` with the store and the VK API it
      talks to. */
  class Bot {
    const store: Store
    const api: Outbox
    var orderTimers: map<int, TimerState>

    constructor(store: Store, api: Outbox)
      ensures this.store == store && this.api == api && orderTimers == map[]
    {
      this.store := store;
      this.api := api;
      orderTimers := map[];
    }

    function State(): World
      reads this, store, api
    {
      World(store.Tables(), orderTimers, api.sent)
    }

    /** The loop that builds the shopping list. */
    static method BuildShoppingList(items: seq<OrderItem>) returns (list: string)
      ensures list == ShoppingLines(items)
    {
      list := "";
      var i := 0;
      while i < |items|
        invariant 0 <= i <= |items|
        invariant list == ShoppingLines(items[..i])
      {
        assert items[..i + 1][..i] == items[..i];
        list := list + ShoppingLine(items[i]);
        i := i + 1;
      }
      assert items[..|items|] == items;
    }

    method ShowCatalog(userId: int)
      modifies api
      ensures State() == CatalogStep(old(State()), userId)
    {
      var categories := store.categories;
      if |categories| == 0 {
        api.Send(Some(userId), CatalogEmpty, Some(BackButton("main_menu")));
        return;
      }
      var kb := CategoriesKeyboard(categories, "main_menu");
      api.Send(Some(userId), Catalog, Some(kb));
    }

    method StartOrder(userId: int)
      modifies store`userStates, api
      ensures State() == StartOrderStep(old(State()), userId)
    {
      var categories := store.categories;
      if |categories| == 0 {
        api.Send(Some(userId), GoodsUnavailable, Some(MainMenuKeyboard()));
        return;
      }
      var kb := CategoriesKeyboard(categories, "order");
      api.Send(Some(userId), ChooseCategory, Some(kb));
      store.SetUserState(userId, "selecting_category", EmptyData);
    }

    method ShowCart(userId: int)
      modifies api
      ensures State() == ShowCartStep(old(State()), userId)
    {
      var cart := store.GetCartItems(userId);
      if |cart| == 0 {
        api.Send(Some(userId), CartEmptyHint, Some(MainMenuKeyboard()));
        return;
      }
      api.Send(Some(userId), CartContents, Some(CartKeyboard()));
    }

    method ShowMyOrders(userId: int)
      modifies api
      ensures State() == ShowMyOrdersStep(old(State()), userId)
    {
      var ids := MyOrderIds(store.orders, userId);
      if |ids| == 0 {
        api.Send(Some(userId), NoActiveOrders, Some(MainMenuKeyboard()));
        return;
      }
      api.Send(Some(userId), MyOrders(ids), Some(MainMenuKeyboard()));
    }

    method ShowCategoryProducts(userId: int, categoryId: int) returns (threw: bool)
      modifies api
      ensures Outcome(State(), threw) == CategoryProductsStep(old(State()), userId, categoryId)
    {
      var products := store.GetProductsByCategory(categoryId);
      if |products| == 0 {
        api.Send(Some(userId), NoProductsInCategory, Some(BackButton("main_menu")));
        return false;
      }
      var category := store.GetCategory(categoryId);
      if category.None? {
        return true;
      }
      var kb := ProductsKeyboard(products, 0, categoryId, 5);
      api.Send(Some(userId), CategoryProducts(categoryId), Some(kb));
      return false;
    }

    method HandleProductSelection(userId: int, productId: Option<int>)
      requires store.Valid()
      modifies store`cart, store`nextCartId, api
      ensures store.Valid()
      ensures State() == ProductSelectionStep(old(State()), userId, productId)
    {
      var product := store.GetProduct(productId);
      if product.None? {
        api.Send(Some(userId), ProductNotFound, Some(MainMenuKeyboard()));
        return;
      }
      store.AddToCart(userId, productId.value, 1);
      api.Send(Some(userId), AddedToCart(productId.value), Some(CartActionsKeyboard()));
    }

    method StartCheckout(userId: int)
      modifies store`userStates, api
      ensures State() == StartCheckoutStep(old(State()), userId)
    {
      var cart := store.GetCartItems(userId);
      if |cart| == 0 {
        api.Send(Some(userId), CartIsEmpty, Some(MainMenuKeyboard()));
        return;
      }
      api.Send(Some(userId), AskUsername, None);
      store.SetUserState(userId, "entering_username", EmptyData);
    }

    method ConfirmOrder(userId: int, username: Option<string>, location: string)
      modifies store`userStates, api
      ensures State() == ConfirmOrderStep(old(State()), userId, username, location)
    {
      var cart := store.GetCartItems(userId);
      if |cart| == 0 {
        ResetDialogue(userId, CartIsEmpty);
        return;
      }
      api.Send(Some(userId), Kind.ConfirmOrder, Some(ConfirmOrderKeyboard()));
      store.SetUserState(userId, "confirming_order", EmptyData.(username := username, location := Some(location)));
    }

    method PlaceOrder(userId: int, username: Option<string>, location: Option<string>) returns (threw: bool)
      requires store.Valid()
      modifies store`cart, store`orders, store`nextOrderId, store`orderItems, store`userStates, api, this`orderTimers
      ensures store.Valid()
      ensures Outcome(State(), threw) == PlaceOrderStep(old(State()), userId, username, location)
    {
      var cart := store.GetCartItems(userId);
      if |cart| == 0 {
        ResetDialogue(userId, CartIsEmpty);
        return false;
      }
      var order;
      order, threw := store.CreateOrder(userId, username, location, cart);
      if threw {
        return;
      }
      ConfirmPlacedOrder(userId, order.id);
      SendOrderToDispatch(order);
    }

    /** The steps of `placeOrder` after `createOrder`. */
    method ConfirmPlacedOrder(userId: int, orderId: int)
      requires store.Valid()
      modifies store`cart, store`userStates, api
      ensures store.Valid()
      ensures State() == OrderConfirmedStep(old(State()), userId, orderId)
    {
      store.ClearCart(userId);
      store.ClearUserState(userId);
      api.Send(Some(userId), OrderPlaced(orderId), Some(MainMenuKeyboard()));
    }

    /** `clearUserState(userId)` and a main-menu message. */
    method ResetDialogue(userId: int, kind: Kind)
      modifies store`userStates, api
      ensures State() == Reset(old(State()), userId, kind)
    {
      store.ClearUserState(userId);
      api.Send(Some(userId), kind, Some(MainMenuKeyboard()));
    }

    method SendOrderToDispatch(order: Order)
      modifies api, this`orderTimers
      ensures State() == DispatchStep(old(State()), order.id)
    {
      var dispatchChat := store.GetChatByType("dispatch");
      if dispatchChat.None? {
        return;
      }
      api.Send(Some(dispatchChat.value.peerId), NewOrderForDispatch(order.id), Some(AcceptOrderKeyboard(order.id)));
      orderTimers := orderTimers[order.id := Armed];
    }

    method HandleOrderTimeout(orderId: Option<int>)
      modifies store`userStates, api
      ensures State() == OrderTimeoutStep(old(State()), orderId)
    {
      var order := store.GetOrder(orderId);
      if order.None? || order.value.status != "pending" {
        return;
      }
      api.Send(Some(order.value.clientVkId), StillRelevant(order.value.id), Some(ConfirmOrderKeyboard()));
      store.SetUserState(order.value.clientVkId, "confirming_order_relevance", EmptyData.(orderId := orderId));
    }

    /** An armed timer runs its callback. */
    method FireTimer(orderId: int)
      requires orderId in orderTimers && orderTimers[orderId] == Armed
      modifies this`orderTimers, store`userStates, api
      ensures State() == TimerFiredStep(old(State()), orderId)
    {
      orderTimers := orderTimers[orderId := Fired];
      HandleOrderTimeout(Some(orderId));
    }

    method HandleAcceptOrder(orderId: Option<int>, courierVkId: int)
      modifies this`orderTimers, store`userStates, api
      ensures State() == AcceptOrderStep(old(State()), orderId, courierVkId)
    {
      var order := store.GetOrder(orderId);
      if order.None? || order.value.status != "pending" {
        api.Send(Some(courierVkId), OrderUnavailable, None);
        return;
      }
      if order.value.id in orderTimers {
        orderTimers := orderTimers - {order.value.id};
      }
      var courier := store.GetEmployee(courierVkId);
      if courier.None? {
        api.Send(Some(courierVkId), CourierNotFound, None);
        return;
      }
      api.Send(Some(courierVkId), AskDeliveryTime(order.value.id), None);
      store.SetUserState(courierVkId, "entering_delivery_time", EmptyData.(orderId := orderId));
    }

    method HandleDeliveryTimeEntered(courierVkId: int, orderId: int, deliveryTime: string, now: int) returns (threw: bool)
      requires store.Valid()
      modifies store`orders, store`userStates, api
      ensures store.Valid()
      ensures Outcome(State(), threw) == DeliveryTimeStep(old(State()), courierVkId, orderId, deliveryTime, now)
    {
      var order := store.GetOrder(Some(orderId));
      if order.None? {
        api.Send(Some(courierVkId), OrderNotFound, None);
        return false;
      }
      var courier := store.GetEmployee(courierVkId);
      store.UpdateOrderStatus(orderId, "accepted", Some(courierVkId), if courier.Some? then Some(courier.value.username) else None,
                              Some(deliveryTime), now);
      store.ClearUserState(courierVkId);
      if courier.None? {
        return true;
      }
      api.Send(Some(order.value.clientVkId), CourierAssigned(courier.value.username, deliveryTime), None);
      var items := store.GetOrderItems(orderId);
      var list := BuildShoppingList(items);
      api.Send(Some(courierVkId), ShoppingList(orderId, list), Some(CourierOrderKeyboard(orderId)));
      return false;
    }

    method HandlePayloadAction(userId: int, payload: Payload) returns (threw: bool)
      requires store.Valid()
      modifies store`cart, store`nextCartId, store`orders, store`nextOrderId, store`orderItems, store`userStates, api, this`orderTimers
      ensures store.Valid()
      ensures Outcome(State(), threw) == PayloadActionStep(old(State()), userId, payload)
    {
      threw := false;
      var action := payload.action;
      if action == Some("add_to_cart") {
        HandleProductSelection(userId, payload.product_id);
      } else if action == Some("remove_from_cart") {
        RemoveCartRow(userId);
      } else if action == Some("clear_cart") {
        ClearUserCart(userId);
      } else if action == Some("checkout") {
        StartCheckout(userId);
      } else if action == Some("confirm_order") {
        var state := store.GetUserState(userId);
        threw := PlaceOrder(userId, state.data.username, state.data.location);
      } else if action == Some("cancel_order") {
        ResetDialogue(userId, OrderCancelled);
      }
    }

    /** The 'remove_from_cart' action. */
    method RemoveCartRow(userId: int)
      requires store.Valid()
      modifies store`cart, api
      ensures store.Valid()
      ensures State() == CartRowRemovedStep(old(State()), userId)
    {
      store.RemoveFromCart(userId);
      ShowCart(userId);
    }

    /** The 'clear_cart' action. */
    method ClearUserCart(userId: int)
      requires store.Valid()
      modifies store`cart, api
      ensures store.Valid()
      ensures State() == CartClearedStep(old(State()), userId)
    {
      store.ClearCart(userId);
      api.Send(Some(userId), CartCleared, Some(MainMenuKeyboard()));
    }

    method HandleUserState(userId: int, text: string, payload: Payload, stateName: string, data: StateData, now: int)
      returns (threw: bool)
      requires store.Valid()
      modifies store`cart, store`orders, store`nextOrderId, store`orderItems, store`userStates, api, this`orderTimers
      ensures store.Valid()
      ensures Outcome(State(), threw) == UserStateStep(old(State()), userId, text, payload, stateName, data, now)
    {
      threw := false;
      if stateName == "entering_delivery_time" {
        if text != "" && JsText.TruthyNum(data.orderId) {
          threw := HandleDeliveryTimeEntered(userId, data.orderId.value, text, now);
        }
      } else if stateName == "selecting_category" {
        var categoryId := if JsText.TruthyNum(payload.category_id) then payload.category_id else JsText.ParseInt(text);
        if JsText.TruthyNum(categoryId) {
          threw := SelectCategory(userId, categoryId.value);
        }
      } else if stateName == "entering_username" {
        EnterUsername(userId, text, data);
      } else if stateName == "entering_location" {
        ConfirmOrder(userId, data.username, text);
      } else if stateName == "confirming_order" || stateName == "confirming_order_relevance" {
        threw := HandleAnswer(userId, text, stateName == "confirming_order_relevance", data);
      } else {
        ResetDialogue(userId, UnknownState);
      }
    }

    /** The 'confirming_order' and 'confirming_order_relevance' states. */
    method HandleAnswer(userId: int, text: string, relevance: bool, data: StateData) returns (threw: bool)
      requires store.Valid()
      modifies store`cart, store`orders, store`nextOrderId, store`orderItems, store`userStates, api, this`orderTimers
      ensures store.Valid()
      ensures Outcome(State(), threw) == AnsweredStep(old(State()), userId, text, relevance, data)
    {
      threw := false;
      if !IsYes(text) {
        ResetDialogue(userId, OrderCancelled);
      } else if relevance {
        HandleOrderTimeout(data.orderId);
      } else {
        threw := PlaceOrder(userId, data.username, data.location);
      }
    }

    /** The 'selecting_category' state given a category id. */
    method SelectCategory(userId: int, categoryId: int) returns (threw: bool)
      modifies store`userStates, api
      ensures Outcome(State(), threw) == CategorySelectedStep(old(State()), userId, categoryId)
    {
      threw := ShowCategoryProducts(userId, categoryId);
      if !threw {
        store.SetUserState(userId, "selecting_product", EmptyData.(categoryId := Some(categoryId)));
      }
    }

    /** The 'entering_username' state. */
    method EnterUsername(userId: int, text: string, data: StateData)
      modifies store`userStates, api
      ensures State() == UsernameEnteredStep(old(State()), userId, text, data)
    {
      store.SetUserState(userId, "entering_location", data.(username := Some(text)));
      api.Send(Some(userId), AskLocation, None);
    }

    method HandleCommand(userId: int, command: string)
      modifies store`userStates, api
      ensures State() == CommandStep(old(State()), userId, command)
    {
      if command == "catalog" {
        ShowCatalog(userId);
      } else if command == "order" {
        StartOrder(userId);
      } else if command == "employment" {
        api.Send(Some(userId), Employment, Some(BackButton("main_menu")));
      } else if command == "faq" {
        api.Send(Some(userId), Faq, Some(BackButton("main_menu")));
      } else if command == "my_orders" {
        ShowMyOrders(userId);
      } else if command == "view_cart" {
        ShowCart(userId);
      } else if command == "back" {
        api.Send(Some(userId), MainMenu, Some(MainMenuKeyboard()));
      } else {
        api.Send(Some(userId), UnknownCommand, Some(MainMenuKeyboard()));
      }
    }

    method HandlePrivateMessage(userId: int, text: string, payload: Payload, now: int) returns (threw: bool)
      requires store.Valid()
      modifies store`users, store`cart, store`nextCartId, store`orders, store`nextOrderId, store`orderItems, store`userStates,
               api, this`orderTimers
      ensures store.Valid()
      ensures Outcome(State(), threw) == PrivateStep(old(State()), userId, text, payload, now)
    {
      threw := false;
      var command := CommandOf(text, payload);
      var user := store.GetUser(userId);
      if user.None? {
        var created := store.CreateUser(userId, "", "client");
        api.Send(Some(userId), Welcome, Some(MainMenuKeyboard()));
        return;
      }
      if IsStartWord(command) {
        ResetDialogue(userId, MainMenu);
        return;
      }
      threw := Route(userId, text, payload, command, now);
    }

    /** The payload's category, product and action, the dialogue state, the command. */
    method Route(userId: int, text: string, payload: Payload, command: string, now: int) returns (threw: bool)
      requires store.Valid()
      modifies store`cart, store`nextCartId, store`orders, store`nextOrderId, store`orderItems, store`userStates,
               api, this`orderTimers
      ensures store.Valid()
      ensures Outcome(State(), threw) == RouteStep(old(State()), userId, text, payload, command, now)
    {
      threw := false;
      var state := store.GetUserState(userId);
      if JsText.TruthyNum(payload.category_id) {
        threw := ShowCategoryProducts(userId, payload.category_id.value);
        return;
      }
      if JsText.TruthyNum(payload.product_id) {
        HandleProductSelection(userId, payload.product_id);
        return;
      }
      if JsText.Truthy(payload.action) {
        threw := HandlePayloadAction(userId, payload);
        return;
      }
      if JsText.Truthy(state.state) {
        threw := HandleUserState(userId, text, payload, state.state.value, state.data, now);
        return;
      }
      HandleCommand(userId, command);
    }

    method TryRegisterChat(peerId: int, conversation: Option<Conversation>)
      requires store.Valid()
      modifies store`chats, api
      ensures store.Valid()
      ensures State() == RegisterChatStep(old(State()), peerId, conversation)
    {
      var title := TitleOf(conversation);
      var chatType := ChatTypeOfTitle(title);
      if chatType.None? {
        return;
      }
      var saved := store.SaveChat(chatType.value, peerId, title);
      api.Send(None, ChatRegistered(title, peerId, chatType.value), None);
      var allChats := store.chats;
      if |allChats| >= 7 {
        api.Send(None, AllChatsRegistered, None);
      }
    }

    method HandleActivityLog(peerId: int, userId: int, username: string, text: string, now: int) returns (threw: bool)
      modifies store`onlineActivity, api
      ensures Outcome(State(), threw) == ActivityLogStep(old(State()), peerId, userId, username, text, now)
    {
      threw := false;
      if text == "!онлайн" {
        var onlineUsers := store.OnlineUsers(now);
        if onlineUsers == {} {
          api.Send(Some(peerId), NobodyOnline, None);
        } else {
          threw := true;
        }
      } else if text == "!афк" {
        store.SetUserStatus(userId, "afk", now);
        api.Send(Some(peerId), MarkedAfk(username), None);
      } else if text == "!вышел" {
        store.SetUserStatus(userId, "offline", now);
        api.Send(Some(peerId), MarkedOffline(username), None);
      }
    }

    method HandleChatCommand(chatType: string, peerId: int, userId: int, employee: Employee, text: string,
                             payload: Payload, message: Message, now: int) returns (threw: bool)
      modifies store`onlineActivity, store`userStates, api, this`orderTimers
      ensures Outcome(State(), threw) == ChatCommandStep(old(State()), chatType, peerId, userId, employee, text, payload, message, now)
    {
      threw := false;
      if chatType == "activity_log" {
        threw := HandleActivityLog(peerId, userId, employee.username, text, now);
      } else if JsText.StartsWith(text, "!стата") {
        api.Send(Some(peerId), UserStats(employee.username), None);
      } else if text == "!беседы" {
        var chats := store.chats;
        if |chats| == 0 {
          api.Send(Some(userId), NoChatsRegistered, None);
        } else {
          api.Send(Some(userId), ChatList(|chats|), None);
        }
      } else if chatType == "senior_staff" {
        if JsText.StartsWith(text, "!") {
          var handled := Admin.HandleSeniorCommands(store, api, Admin.TextArgument(text), userId);
        }
      } else if chatType == "management" {
        if JsText.StartsWith(text, "!") {
          var handled;
          handled, threw := Admin.HandleManagementCommands(store, api, Admin.TextArgument(text), userId);
        }
      } else if JsText.StartsWith(text, "!пост") && message.hasReply && employee.role == "management" {
        var handled := Admin.HandlePostCommand(store, api, Admin.MessageObject(message.text, peerId, message.hasReply), userId);
      } else if chatType == "dispatch" && payload.action == Some("accept_order") {
        HandleAcceptOrder(payload.order_id, userId);
      }
    }

    method HandleChatMessage(peerId: int, userId: int, text: string, payload: Payload, message: Message, env: Env)
      returns (threw: bool)
      requires store.Valid()
      modifies store`chats, store`dailyStats, store`onlineActivity, store`userStates, api, this`orderTimers
      ensures store.Valid()
      ensures Outcome(State(), threw) == ChatStep(old(State()), peerId, userId, text, payload, message, env)
    {
      threw := false;
      var chat := store.GetChatByPeerId(peerId);
      if chat.None? {
        TryRegisterChat(peerId, env.conversation);
        return;
      }
      var employee := store.GetEmployee(userId);
      if employee.None? {
        return;
      }
      RecordActivity(userId, env);
      threw := HandleChatCommand(chat.value.chatType, peerId, userId, employee.value, text, payload, message, env.now);
    }

    method RecordActivity(userId: int, env: Env)
      modifies store`dailyStats, store`onlineActivity
      ensures State() == ActivityRecorded(old(State()), userId, env)
    {
      store.IncrementMessageCount(userId, env.today);
      store.UpdateOnlineActivity(userId, env.now);
    }

    /** `handleVKMessage(message)` */
    method HandleVKMessage(m: Message, env: Env) returns (threw: bool)
      requires store.Valid()
      modifies store, api, this`orderTimers
      ensures store.Valid()
      ensures Outcome(State(), threw) == HandleVKMessageStep(old(State()), m, env)
    {
      var text := TextOf(m);
      var blacklisted := store.CheckBlacklist(m.fromId, env.now);
      if blacklisted {
        api.Send(Some(m.fromId), Blacklisted, None);
        return false;
      }
      if m.peerId == m.fromId {
        threw := HandlePrivateMessage(m.fromId, text, m.payload, env.now);
      } else {
        threw := HandleChatMessage(m.peerId, m.fromId, text, m.payload, m, env);
      }
    }
  }
}
