/** The VK API as the bot sees it: `sendMessage` appends to an outbox, and the two
    small computations of `lib/vk-api.js` that the handlers depend on. A message is
    recorded by its recipient, its kind and its keyboard; the text templates are not
    part of this model. */
module VkApi {
  import opened Options
  import opened Keyboards
  import JsText

  /** What a message says, with the ids and names it carries. */
  datatype Kind =
    // lib/vk-handlers.js
    | Blacklisted
    | Welcome
    | MainMenu
    | Employment
    | Faq
    | UnknownCommand
    | CatalogEmpty
    | Catalog
    | GoodsUnavailable
    | ChooseCategory
    | CartEmptyHint
    | CartContents
    | NoActiveOrders
    | MyOrders(orderIds: seq<int>)
    | AskLocation
    | OrderCancelled
    | UnknownState
    | NoProductsInCategory
    | CategoryProducts(categoryId: int)
    | CartIsEmpty
    | ConfirmOrder
    | OrderPlaced(orderId: int)
    | NewOrderForDispatch(orderId: int)
    | StillRelevant(orderId: int)
    | ChatRegistered(title: string, peerId: int, chatType: string)
    | AllChatsRegistered
    | NobodyOnline
    | MarkedAfk(username: string)
    | MarkedOffline(username: string)
    | UserStats(username: string)
    | NoChatsRegistered
    | ChatList(count: nat)
    | OrderUnavailable
    | CourierNotFound
    | AskDeliveryTime(orderId: int)
    | AskUsername
    | OrderNotFound
    | CourierAssigned(courier: string, deliveryTime: string)
    | ShoppingList(orderId: int, list: string)
    | ProductNotFound
    | AddedToCart(productId: int)
    | CartCleared
    // lib/vk-admin.js
    | StaffStats
    | AskStaffId
    | AskAnnouncement
    | AskCategoryName
    | NoCategoriesToDelete
    | DeleteCategoryList(listing: string)
    | CreateCategoriesFirst
    | ProductCategoryList(listing: string)
    | NoProductsToDelete
    | DeleteProductList(listing: string)
    | AskPostText
    | PostPublished

  /** One `sendMessage(peerId, message, keyboard)` call. `peer` is `None` when the
      code passes `undefined`. */
  datatype Sent = Sent(peer: Option<int>, kind: Kind, keyboard: Option<Keyboard>)

  /** Every message sent so far, in order. */
  class Outbox {
    var sent: seq<Sent>

    constructor()
      ensures sent == []
    {
      sent := [];
    }

    /** `sendMessage(peer, text, keyboard)` */
    method Send(peer: Option<int>, kind: Kind, keyboard: Option<Keyboard>)
      modifies this
      ensures sent == old(sent) + [Sent(peer, kind, keyboard)]
    {
      sent := sent + [Sent(peer, kind, keyboard)];
    }
  }

  /** The parts of a `messages.getConversationsById` item that `getConversationMembers`
      reads. */
  datatype ChatSettings = ChatSettings(title: Option<string>)
  datatype Conversation = Conversation(chatSettings: Option<ChatSettings>, localId: Option<int>)

  /** The `title` of the object `getConversationMembers` returns: the chat settings'
      title when there are settings, else "Chat <local_id>", else "Unknown Chat". A
      missing conversation also gives "Unknown Chat". */
  function ConversationTitle(conversation: Option<Conversation>): (title: Option<string>)
    ensures conversation.Some? && conversation.value.chatSettings.Some? ==> title == conversation.value.chatSettings.value.title
    ensures JsText.Truthy(title) || (conversation.Some? && conversation.value.chatSettings.Some?)
    ensures conversation.Some? && conversation.value.chatSettings.None? && JsText.TruthyNum(conversation.value.localId) ==>
              title == Some("Chat " + JsText.IntToString(conversation.value.localId.value))
    ensures (conversation.None? || (conversation.value.chatSettings.None? && !JsText.TruthyNum(conversation.value.localId))) ==>
              title == Some("Unknown Chat")
  {
    if conversation.Some? && conversation.value.chatSettings.Some? then conversation.value.chatSettings.value.title
    else if conversation.Some? && JsText.TruthyNum(conversation.value.localId) then
      Some("Chat " + JsText.IntToString(conversation.value.localId.value))
    else Some("Unknown Chat")
  }

  const PeerBase := 2000000000

  /** The `chat_id` `kickUser` derives from a peer id. */
  function ChatIdOf(peerId: int): (chatId: int)
    ensures chatId >= 0
    ensures peerId > PeerBase ==> chatId + PeerBase == peerId
    ensures peerId <= PeerBase ==> chatId == peerId || chatId == -peerId
  {
    if peerId > PeerBase then peerId - PeerBase else if peerId < 0 then -peerId else peerId
  }
}
