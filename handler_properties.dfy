/** What the handlers of `lib/vk-handlers.js` promise, and where they fall short of
    what the bot's design describes, stated on the step functions of module Handlers.
    Every `Bot` method is proved to leave the world its step function gives, so each
    lemma here is about what the bot does. */
module HandlerProperties {
  import opened Options
  import opened Tables
  import opened Database
  import opened Keyboards
  import opened VkApi
  import opened Handlers
  import JsText
  import Admin

  // ---------------------------------------------------------------------------
  // Routing of a message
  // ---------------------------------------------------------------------------

  /** A blacklisted sender gets the notice and nothing else happens, in a private
      chat or a group chat alike. */
  lemma BlacklistedSenderOnlyNotified(w: World, m: Message, env: Env)
    requires IsBlacklisted(w.t.users, m.fromId, env.now)
    ensures HandleVKMessageStep(w, m, env) == Outcome(w.(sent := w.sent + [Sent(Some(m.fromId), Blacklisted, None)]), false)
  {
  }

  /** The first private message of someone without a user row registers them as a
      client with no name and greets them; what the message asked for is not done. */
  lemma {:induction false} FirstContactOnlyRegisters(w: World, userId: int, text: string, payload: Payload, now: int)
    requires userId !in w.t.users
    ensures var o := PrivateStep(w, userId, text, payload, now);
            && !o.threw
            && o.w.t.users == w.t.users[userId := User(userId, "", "client", None)]
            && o.w.t.userStates == w.t.userStates && o.w.t.cart == w.t.cart && o.w.t.orders == w.t.orders
            && o.w.sent == w.sent + [Sent(Some(userId), Welcome, Some(MainMenuKeyboard()))]
  {
    assert UserCreated(w.t.users, userId, "", "client")[userId] == User(userId, "", "client", None);
  }

  /** A start word, typed or sent as a button's command, clears the dialogue state from
      whatever state it was in. */
  lemma StartWordClearsState(w: World, userId: int, text: string, payload: Payload, now: int)
    requires userId in w.t.users
    requires IsStartWord(CommandOf(text, payload))
    ensures var o := PrivateStep(w, userId, text, payload, now);
            && o == Outcome(Reset(w, userId, MainMenu), false)
            && StateOf(o.w.t.userStates, userId) == StateView(None, EmptyData)
  {
  }

  /** The payload is read before the dialogue state: a category button shows that
      category whatever state the user is in. */
  lemma CategoryPayloadBeforeState(w: World, userId: int, text: string, payload: Payload, now: int)
    requires userId in w.t.users && !IsStartWord(CommandOf(text, payload))
    requires JsText.TruthyNum(payload.category_id)
    ensures PrivateStep(w, userId, text, payload, now) == CategoryProductsStep(w, userId, payload.category_id.value)
  {
  }

  /** A state the handler has no case for is cleared with a notice. */
  lemma UnknownStateIsReset(w: World, userId: int, text: string, payload: Payload, stateName: string, data: StateData, now: int)
    requires stateName !in {"entering_delivery_time", "selecting_category", "entering_username", "entering_location",
                            "confirming_order", "confirming_order_relevance"}
    ensures UserStateStep(w, userId, text, payload, stateName, data, now) == Outcome(Reset(w, userId, UnknownState), false)
  {
  }

  /** The state a category choice leads to, 'selecting_product', is one of those: a
      typed message in it only resets the dialogue. */
  lemma SelectingProductIsUnknown(w: World, userId: int, text: string, payload: Payload, data: StateData, now: int)
    ensures UserStateStep(w, userId, text, payload, "selecting_product", data, now) == Outcome(Reset(w, userId, UnknownState), false)
  {
    UnknownStateIsReset(w, userId, text, payload, "selecting_product", data, now);
  }

  /** A category chosen in 'selecting_category' that has products moves the dialogue
      to 'selecting_product'. */
  lemma CategoryChoiceAdvances(w: World, userId: int, text: string, payload: Payload, data: StateData, now: int)
    requires JsText.TruthyNum(payload.category_id)
    requires FindCategory(w.t.categories, payload.category_id.value).Some?
    requires ProductsInCategory(w.t.products, payload.category_id.value) != []
    ensures var o := UserStateStep(w, userId, text, payload, "selecting_category", data, now);
            && !o.threw
            && o.w.t.userStates[userId] == StateRow("selecting_product", EmptyData.(categoryId := payload.category_id))
  {
  }

  /** The name typed in 'entering_username' is accepted whatever it is: the validator
      returns an object, which is always truthy, so its re-prompt is never sent. */
  lemma AnyUsernameAccepted(w: World, userId: int, text: string, payload: Payload, data: StateData, now: int)
    ensures var o := UserStateStep(w, userId, text, payload, "entering_username", data, now);
            && !o.threw
            && o.w.t.userStates[userId] == StateRow("entering_location", data.(username := Some(text)))
            && o.w.sent == w.sent + [Sent(Some(userId), AskLocation, None)]
  {
  }

  /** The location typed in 'entering_location' is accepted whatever it is too, and
      with a non-empty cart the order is put up for confirmation. */
  lemma AnyLocationAccepted(w: World, userId: int, text: string, payload: Payload, data: StateData, now: int)
    requires CartOf(w, userId) != []
    ensures var o := UserStateStep(w, userId, text, payload, "entering_location", data, now);
            && !o.threw
            && o.w.t.userStates[userId] == StateRow("confirming_order", EmptyData.(username := data.username, location := Some(text)))
            && o.w.sent == w.sent + [Sent(Some(userId), ConfirmOrder, Some(ConfirmOrderKeyboard()))]
  {
  }

  // ---------------------------------------------------------------------------
  // Placing an order
  // ---------------------------------------------------------------------------

  /** An empty cart places nothing: the dialogue is reset with a notice. */
  lemma EmptyCartPlacesNothing(w: World, userId: int, username: Option<string>, location: Option<string>)
    requires CartOf(w, userId) == []
    ensures PlaceOrderStep(w, userId, username, location) == Outcome(Reset(w, userId, CartIsEmpty), false)
  {
  }

  /** A cart line whose product is gone makes `createOrder` throw before it writes
      anything. */
  lemma MissingProductWritesNothing(w: World, userId: int, username: Option<string>, location: Option<string>)
    requires CartOf(w, userId) != [] && !AllPriced(CartOf(w, userId))
    ensures PlaceOrderStep(w, userId, username, location) == Outcome(w, true)
  {
  }

  /** An order goes to the dispatch chat only when there is exactly one; then that
      chat gets it with its accept button and the order's timer is armed. Nothing else
      changes. */
  lemma DispatchEffect(w: World, orderId: int)
    ensures var r := DispatchStep(w, orderId);
            && r.t == w.t
            && (ChatByType(w.t.chats, "dispatch").None? ==> r == w)
            && (ChatByType(w.t.chats, "dispatch").Some? ==>
                  && r.sent == w.sent + [Sent(Some(ChatByType(w.t.chats, "dispatch").value.peerId), NewOrderForDispatch(orderId),
                                              Some(AcceptOrderKeyboard(orderId)))]
                  && r.timers == w.timers[orderId := Armed])
  {
  }

  /** With the tables valid, the catalogue and the start of an order list the categories
      by name: the grid's buttons, read row by row, are one per category, in name
      order. */
  lemma CategoryKeyboardsByName(w: World, userId: int)
    requires SnapshotValid(w.t) && w.t.categories != []
    ensures var cats := w.t.categories;
            var grid := Flatten(CategoryGrid(cats));
            && CatalogStep(w, userId).sent == w.sent + [Sent(Some(userId), Catalog, Some(CategoriesLayout(cats, "main_menu")))]
            && StartOrderStep(w, userId).sent == w.sent + [Sent(Some(userId), ChooseCategory, Some(CategoriesLayout(cats, "order")))]
            && |grid| == |cats|
            && (forall k :: 0 <= k < |grid| ==> grid[k].payload.categoryId == Some(cats[k].id))
            && (forall i, j :: 0 <= i < j < |grid| ==> NameLe(grid[i].caption, grid[j].caption))
  {
    CategoryGridInOrder(w.t.categories);
  }

  /** With the tables valid, the first page of a category shows its first five products
      by name, one per row. */
  lemma CategoryPageByName(w: World, userId: int, categoryId: int)
    requires SnapshotValid(w.t)
    ensures var products := ProductsInCategory(w.t.products, categoryId);
            var ps := PageProducts(products, 0, 5);
            && |ps| == (if |products| <= 5 then |products| else 5)
            && (forall k :: 0 <= k < |ps| ==> ps[k] == products[k])
            && (forall i, j :: 0 <= i < j < |ps| ==> NameLe(ps[i].name, ps[j].name))
            && (products != [] && FindCategory(w.t.categories, categoryId).Some? ==>
                  var kb := ProductsLayout(products, 0, categoryId, 5);
                  && CategoryProductsStep(w, userId, categoryId)
                       == Outcome(w.(sent := w.sent + [Sent(Some(userId), CategoryProducts(categoryId), Some(kb))]), false)
                  && forall k :: 0 <= k < |ps| ==> kb.buttons[k] == ProductRow(ps[k]))
  {
    var products := ProductsInCategory(w.t.products, categoryId);
    ProductsInCategoryByName(w.t.products, categoryId);
    PageProductsAt(products, 0, 5);
    ProductsLayoutRows(products, 0, categoryId, 5);
  }

  /** A proof step only, not a promise of its own: it unfolds `placeOrder` for a non-empty
      cart whose products all exist, so the lemmas below can build on the result. */
  lemma PlacedOrderWorld(w: World, userId: int, username: Option<string>, location: Option<string>)
    requires CartOf(w, userId) != [] && AllPriced(CartOf(w, userId))
    ensures var cart := CartOf(w, userId);
            var order := NewOrder(w.t.nextOrderId, userId, username, location, CartPrice(cart), CartCost(cart));
            PlaceOrderStep(w, userId, username, location)
              == Outcome(DispatchStep(OrderConfirmedStep(w.(t := OrderCreatedTables(w.t, order, cart)), userId, order.id), order.id), false)
  {
  }

  /** Placing an order from a non-empty cart adds exactly one 'pending' order with the
      next id, whose items are the cart's lines at their current prices and add up to
      its totals; the tables stay consistent. */
  lemma {:induction false} PlacedOrderMatchesCart(w: World, userId: int, username: Option<string>, location: Option<string>)
    requires SnapshotValid(w.t)
    requires CartOf(w, userId) != [] && AllPriced(CartOf(w, userId))
    ensures var cart := CartOf(w, userId);
            var id := w.t.nextOrderId;
            var o := PlaceOrderStep(w, userId, username, location);
            && !o.threw
            && o.w.t.orders == w.t.orders + [NewOrder(id, userId, username, location, CartPrice(cart), CartCost(cart))]
            && o.w.t.orders[|w.t.orders|].status == "pending"
            && o.w.t.nextOrderId == id + 1
            && ItemsOfOrder(o.w.t.orderItems, id) == SnapshotItems(id, cart)
            && ItemsPrice(ItemsOfOrder(o.w.t.orderItems, id)) == CartPrice(cart)
            && ItemsCost(ItemsOfOrder(o.w.t.orderItems, id)) == CartCost(cart)
  {
    var cart := CartOf(w, userId);
    var id := w.t.nextOrderId;
    var order := NewOrder(id, userId, username, location, CartPrice(cart), CartCost(cart));
    var created := w.(t := OrderCreatedTables(w.t, order, cart));
    var confirmed := OrderConfirmedStep(created, userId, id);
    PlacedOrderWorld(w, userId, username, location);
    DispatchEffect(confirmed, id);
    assert confirmed.t.orders == w.t.orders + [order] && confirmed.t.orderItems == w.t.orderItems + SnapshotItems(id, cart);
    var more := SnapshotItems(id, cart);
    assert forall it :: it in w.t.orderItems ==> it.orderId != id by {
      forall it | it in w.t.orderItems ensures it.orderId != id {
        var k :| 0 <= k < |w.t.orderItems| && w.t.orderItems[k] == it;
      }
    }
    assert forall it :: it in more ==> it.orderId == id by {
      forall it | it in more ensures it.orderId == id {
        var k :| 0 <= k < |more| && more[k] == it;
      }
    }
    ItemsOfOrderAppendOwn(w.t.orderItems, more, id);
    SnapshotTotals(id, cart);
  }

  /** ... and the tables stay consistent. */
  lemma PlacedOrderKeepsTablesValid(w: World, userId: int, username: Option<string>, location: Option<string>)
    requires SnapshotValid(w.t)
    requires CartOf(w, userId) != [] && AllPriced(CartOf(w, userId))
    ensures SnapshotValid(PlaceOrderStep(w, userId, username, location).w.t)
  {
    var cart := CartOf(w, userId);
    var id := w.t.nextOrderId;
    var order := NewOrder(id, userId, username, location, CartPrice(cart), CartCost(cart));
    var confirmed := OrderConfirmedStep(w.(t := OrderCreatedTables(w.t, order, cart)), userId, id);
    PlacedOrderWorld(w, userId, username, location);
    DispatchEffect(confirmed, id);
    CreateOrderKeepsValid(w.t.orders, id, w.t.orderItems, order, cart);
    WithoutUserValid(w.t.cart, w.t.nextCartId, userId);
  }

  /** ... and then the client's cart is empty, the dialogue cleared and the client told
      the order number, and the order's timer is armed exactly when there is a dispatch
      chat. */
  lemma {:induction false} PlacedOrderClearsCart(w: World, userId: int, username: Option<string>, location: Option<string>)
    requires CartOf(w, userId) != [] && AllPriced(CartOf(w, userId))
    ensures var id := w.t.nextOrderId;
            var o := PlaceOrderStep(w, userId, username, location);
            && CartOf(o.w, userId) == []
            && userId !in o.w.t.userStates
            && o.w.sent[|w.sent|] == Sent(Some(userId), OrderPlaced(id), Some(MainMenuKeyboard()))
            && (id in o.w.timers <==> id in w.timers || ChatByType(w.t.chats, "dispatch").Some?)
  {
    var cart := CartOf(w, userId);
    var id := w.t.nextOrderId;
    var order := NewOrder(id, userId, username, location, CartPrice(cart), CartCost(cart));
    var confirmed := OrderConfirmedStep(w.(t := OrderCreatedTables(w.t, order, cart)), userId, id);
    PlacedOrderWorld(w, userId, username, location);
    DispatchEffect(confirmed, id);
    assert confirmed.sent == w.sent + [Sent(Some(userId), OrderPlaced(id), Some(MainMenuKeyboard()))];
    assert confirmed.t.cart == WithoutUser(w.t.cart, userId) && confirmed.t.products == w.t.products;
    ClearedCartItems(w.t.cart, w.t.products, userId, userId);
  }

  // ---------------------------------------------------------------------------
  // Timers, relevance and acceptance
  // ---------------------------------------------------------------------------

  /** The timeout asks the client again only about an existing order still
      'pending', and then puts the client in 'confirming_order_relevance'. */
  lemma TimeoutOnlyForPending(w: World, orderId: Option<int>)
    ensures var r := OrderTimeoutStep(w, orderId);
            var o := OrderById(w.t.orders, orderId);
            && (r.sent != w.sent <==> o.Some? && o.value.status == "pending")
            && (r.sent == w.sent ==> r == w)
            && (o.Some? && o.value.status == "pending" ==>
                  && r.sent == w.sent + [Sent(Some(o.value.clientVkId), StillRelevant(o.value.id), Some(ConfirmOrderKeyboard()))]
                  && r.t.userStates[o.value.clientVkId] == StateRow("confirming_order_relevance", EmptyData.(orderId := orderId)))
  {
  }

  /** Confirming relevance places nothing: for an order still pending the client is
      asked the same question again and stays in the same state. */
  lemma RelevanceConfirmationRepeats(w: World, userId: int, text: string, payload: Payload, data: StateData, now: int)
    requires IsYes(text)
    requires OrderById(w.t.orders, data.orderId).Some? && OrderById(w.t.orders, data.orderId).value.status == "pending"
    ensures var o := UserStateStep(w, userId, text, payload, "confirming_order_relevance", data, now);
            var client := OrderById(w.t.orders, data.orderId).value.clientVkId;
            && !o.threw
            && o.w.t.orders == w.t.orders
            && o.w.t.userStates[client] == StateRow("confirming_order_relevance", EmptyData.(orderId := data.orderId))
  {
  }

  /** Any other answer in 'confirming_order_relevance' only clears the dialogue: the
      order itself is not cancelled. */
  lemma RelevanceRefusalKeepsOrder(w: World, userId: int, text: string, payload: Payload, data: StateData, now: int)
    requires !IsYes(text)
    ensures var o := UserStateStep(w, userId, text, payload, "confirming_order_relevance", data, now);
            && o == Outcome(Reset(w, userId, OrderCancelled), false)
            && o.w.t.orders == w.t.orders
  {
    assert UserStateStep(w, userId, text, payload, "confirming_order_relevance", data, now)
        == AnsweredStep(w, userId, text, true, data);
  }

  /** Accepting an order that is missing or no longer 'pending' only tells the courier. */
  lemma AcceptRejectsUnavailable(w: World, orderId: Option<int>, courier: int)
    requires OrderById(w.t.orders, orderId).None? || OrderById(w.t.orders, orderId).value.status != "pending"
    ensures AcceptOrderStep(w, orderId, courier) == Say(w, courier, OrderUnavailable, None)
  {
  }

  /** Accepting a pending order stops its timer and, for a known courier, asks for
      the delivery time; the order itself stays 'pending'. */
  lemma AcceptKeepsOrderPending(w: World, orderId: Option<int>, courier: int)
    requires OrderById(w.t.orders, orderId).Some? && OrderById(w.t.orders, orderId).value.status == "pending"
    ensures var r := AcceptOrderStep(w, orderId, courier);
            var id := OrderById(w.t.orders, orderId).value.id;
            && r.t.orders == w.t.orders
            && id !in r.timers
            && (courier in w.t.employees ==>
                  && r.t.userStates[courier] == StateRow("entering_delivery_time", EmptyData.(orderId := orderId))
                  && r.sent == w.sent + [Sent(Some(courier), AskDeliveryTime(id), None)])
            && (courier !in w.t.employees ==> r.sent == w.sent + [Sent(Some(courier), CourierNotFound, None)])
  {
  }

  /** So a second courier accepting the same order is not turned away: both are asked
      for a delivery time. */
  lemma TwoCouriersCanAccept(w: World, orderId: Option<int>, first: int, second: int)
    requires OrderById(w.t.orders, orderId).Some? && OrderById(w.t.orders, orderId).value.status == "pending"
    requires first in w.t.employees && second in w.t.employees
    ensures var id := OrderById(w.t.orders, orderId).value.id;
            var r := AcceptOrderStep(AcceptOrderStep(w, orderId, first), orderId, second);
            && r.sent == w.sent + [Sent(Some(first), AskDeliveryTime(id), None), Sent(Some(second), AskDeliveryTime(id), None)]
            && r.t.userStates[first] == r.t.userStates[second]
  {
    AcceptKeepsOrderPending(w, orderId, first);
    var r1 := AcceptOrderStep(w, orderId, first);
    assert OrderById(r1.t.orders, orderId) == OrderById(w.t.orders, orderId);
    AcceptKeepsOrderPending(r1, orderId, second);
  }

  /** The delivery time marks every row with that id 'accepted' by the courier at
      `now`, with that time when it is non-empty; the courier's dialogue is cleared. A
      known courier's client is told, and the courier gets the shopping list. */
  lemma {:induction false} DeliveryTimeAccepts(w: World, courier: int, orderId: int, deliveryTime: string, now: int)
    requires OrderById(w.t.orders, Some(orderId)).Some?
    ensures var o := DeliveryTimeStep(w, courier, orderId, deliveryTime, now);
            && |o.w.t.orders| == |w.t.orders|
            && (forall k :: 0 <= k < |w.t.orders| && w.t.orders[k].id == orderId ==>
                  && o.w.t.orders[k].status == "accepted"
                  && o.w.t.orders[k].acceptedAt == Some(now)
                  && o.w.t.orders[k].courierVkId == (if courier != 0 then Some(courier) else w.t.orders[k].courierVkId)
                  && o.w.t.orders[k].estimatedTime == (if deliveryTime != "" then Some(deliveryTime) else w.t.orders[k].estimatedTime))
            && (forall k :: 0 <= k < |w.t.orders| && w.t.orders[k].id != orderId ==> o.w.t.orders[k] == w.t.orders[k])
            && courier !in o.w.t.userStates
            && (o.threw <==> courier !in w.t.employees)
            && (!o.threw ==> |o.w.sent| == |w.sent| + 2
                             && o.w.sent[|w.sent|].peer == Some(OrderById(w.t.orders, Some(orderId)).value.clientVkId))
  {
    var c := EmployeeOf(w.t, courier);
    var updates := StatusUpdates("accepted", Some(courier), if c.Some? then Some(c.value.username) else None,
                                 Some(deliveryTime), now);
    forall k | 0 <= k < |w.t.orders| && w.t.orders[k].id == orderId
      ensures ApplyUpdates(w.t.orders[k], updates).status == "accepted"
      ensures ApplyUpdates(w.t.orders[k], updates).acceptedAt == Some(now)
      ensures ApplyUpdates(w.t.orders[k], updates).courierVkId == (if courier != 0 then Some(courier) else w.t.orders[k].courierVkId)
      ensures ApplyUpdates(w.t.orders[k], updates).estimatedTime == (if deliveryTime != "" then Some(deliveryTime) else w.t.orders[k].estimatedTime)
    {
      StatusUpdateEffect(w.t.orders[k], "accepted", Some(courier), if c.Some? then Some(c.value.username) else None,
                         Some(deliveryTime), now);
    }
  }

  // ---------------------------------------------------------------------------
  // Buttons that do not do what their caption says
  // ---------------------------------------------------------------------------

  /** The caption of the confirmation button is not one of the words the
      'confirming_order' state accepts. */
  lemma ConfirmCaptionIsNotYes()
    ensures !IsYes("✅ Всё верно")
  {
    var caption := "✅ Всё верно";
    var lowered := JsText.ToLower(caption);
    assert |lowered| == |caption| == 11;
    assert lowered[0] == JsText.LowerChar('✅') == '✅';
    assert lowered != "подтвердить" by {
      assert "подтвердить"[0] == 'п';
    }
  }

  /** In 'confirming_order', a message with no category, product or action in its
      payload and no start word cancels the order unless its text is a confirmation,
      whatever command its payload carries. */
  lemma RefusedConfirmationCancels(w: World, userId: int, text: string, payload: Payload, data: StateData, now: int)
    requires userId in w.t.users
    requires userId in w.t.userStates && w.t.userStates[userId] == StateRow("confirming_order", data)
    requires !IsStartWord(CommandOf(text, payload))
    requires !JsText.TruthyNum(payload.category_id) && !JsText.TruthyNum(payload.product_id) && !JsText.Truthy(payload.action)
    requires !IsYes(text)
    ensures PrivateStep(w, userId, text, payload, now) == Outcome(Reset(w, userId, OrderCancelled), false)
  {
    assert StateOf(w.t.userStates, userId) == StateView(Some("confirming_order"), data);
  }

  /** So pressing "✅ Всё верно" on the confirmation keyboard cancels the order
      instead of placing it: its caption is no confirmation, and its command,
      'confirm_order', is neither a start word nor read by any branch. */
  lemma ConfirmButtonRefuses(button: Button)
    requires button == ConfirmOrderKeyboard().buttons[0][0]
    ensures !IsYes(button.caption)
    ensures !IsStartWord(CommandOf(button.caption, button.payload))
    ensures button.payload.category_id == None && button.payload.product_id == None && button.payload.action == None
  {
    assert button.payload == Cmd("confirm_order");
    assert CommandOf(button.caption, button.payload) == "confirm_order";
    assert button.caption == "✅ Всё верно";
    ConfirmCaptionIsNotYes();
  }

  /** The dispatch chat's accept button sends `orderId` and no `action`, while the
      handler waits for `action == 'accept_order'`: pressing it changes nothing. */
  lemma AcceptButtonDoesNothing(w: World, orderId: int, button: Button, peerId: int, userId: int, e: Employee, m: Message, now: int)
    requires button == AcceptOrderKeyboard(orderId).buttons[0][0]
    ensures ChatCommandStep(w, "dispatch", peerId, userId, e, button.caption, button.payload, m, now) == Outcome(w, false)
  {
    assert button.caption[0] == '✅';
  }

  // ---------------------------------------------------------------------------
  // Group chats
  // ---------------------------------------------------------------------------

  /** A chat whose title names no role is not registered and nobody is told. */
  lemma UnmatchedTitleIgnored(w: World, peerId: int, conversation: Option<Conversation>)
    requires ChatTypeOfTitle(TitleOf(conversation)).None?
    ensures RegisterChatStep(w, peerId, conversation) == w
  {
  }

  /** A chat whose title names a role is saved under its peer id with that role, the
      registration is announced, and the all-registered notice follows whenever the
      table then holds seven chats or more, so it repeats for every later chat. */
  lemma RegisteredChatIsSaved(w: World, peerId: int, conversation: Option<Conversation>)
    requires ChatsValid(w.t.chats)
    requires ChatTypeOfTitle(TitleOf(conversation)).Some?
    ensures var title := TitleOf(conversation);
            var chatType := ChatTypeOfTitle(title).value;
            var r := RegisterChatStep(w, peerId, conversation);
            && ChatsValid(r.t.chats)
            && ChatByPeer(r.t.chats, peerId) == Some(Chat(chatType, peerId, title))
            && r.sent[|w.sent|] == Sent(None, ChatRegistered(title, peerId, chatType), None)
            && (|r.sent| == |w.sent| + 2 <==> |r.t.chats| >= 7)
            && (|r.t.chats| >= 7 ==> r.sent[|w.sent| + 1] == Sent(None, AllChatsRegistered, None))
  {
    var title := TitleOf(conversation);
    var c := Chat(ChatTypeOfTitle(title).value, peerId, title);
    ChatSavedEffect(w.t.chats, c);
    var r := ChatSaved(w.t.chats, c);
    var k := FindChat(r, peerId).value;
    assert r[k] == c;
  }

  /** A message in a registered chat from someone who is not an employee changes
      nothing. */
  lemma NonEmployeeIgnored(w: World, peerId: int, userId: int, text: string, payload: Payload, m: Message, env: Env)
    requires ChatByPeer(w.t.chats, peerId).Some?
    requires userId !in w.t.employees
    ensures ChatStep(w, peerId, userId, text, payload, m, env) == Outcome(w, false)
  {
  }

  /** '!онлайн' in the activity log always throws: the sender has just been marked
      online, so the list is never empty and the formatter is reached. */
  lemma OnlineCommandThrows(w: World, peerId: int, userId: int, payload: Payload, m: Message, env: Env)
    requires ChatByPeer(w.t.chats, peerId).Some? && ChatByPeer(w.t.chats, peerId).value.chatType == "activity_log"
    requires userId in w.t.employees
    ensures ChatStep(w, peerId, userId, "!онлайн", payload, m, env).threw
  {
    var active := ActivityRecorded(w, userId, env);
    assert userId in OnlineSet(active.t.onlineActivity, env.now);
  }

  /** Other senior-staff commands reach the senior handler with the text where it
      expects the message, so nothing happens beyond the activity counters. */
  lemma SeniorChatCommandsDoNothing(w: World, peerId: int, userId: int, e: Employee, text: string, payload: Payload,
                                    m: Message, now: int)
    requires JsText.StartsWith(text, "!") && !JsText.StartsWith(text, "!стата") && text != "!беседы"
    ensures ChatCommandStep(w, "senior_staff", peerId, userId, e, text, payload, m, now) == Outcome(w, false)
  {
    Admin.TextArgumentHasNoCommand(text);
  }

  /** In the management chat the same mistake makes the management handler throw for
      a user whose role is 'management' and do nothing for anyone else. */
  lemma ManagementChatCommandsThrow(w: World, peerId: int, userId: int, e: Employee, text: string, payload: Payload,
                                    m: Message, now: int)
    requires JsText.StartsWith(text, "!") && !JsText.StartsWith(text, "!стата") && text != "!беседы"
    ensures var o := ChatCommandStep(w, "management", peerId, userId, e, text, payload, m, now);
            && o.w == w
            && (o.threw <==> userId in w.t.users && w.t.users[userId].role == "management")
  {
    Admin.TextArgumentHasNoCommand(text);
  }
}
