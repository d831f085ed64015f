/** The staff commands of `lib/vk-admin.js`: a role gate on the `users` row, then a
    fixed command vocabulary, then one dialogue state written and one message sent. */
module Admin {
  import opened Options
  import opened Tables
  import opened Database
  import opened VkApi
  import Helpers
  import Keyboards
  import JsText

  /** The first argument of the handlers. The chat router passes the message text where
      a message object is expected, and a string has no `text`, `peer_id` or
      `reply_message`. */
  datatype AdminMessage =
    | MessageObject(text: Option<string>, peerId: int, hasReply: bool)
    | TextArgument(s: string)

  /** `message.text?.trim()` */
  function CommandText(m: AdminMessage): (t: Option<string>)
    ensures m.TextArgument? ==> t.None?
  {
    if m.MessageObject? && m.text.Some? then Some(JsText.Trim(m.text.value)) else None
  }

  /** `message.peer_id` */
  function PeerOf(m: AdminMessage): Option<int> {
    if m.MessageObject? then Some(m.peerId) else None
  }

  /** `message.reply_message` is present. */
  predicate HasReply(m: AdminMessage) {
    m.MessageObject? && m.hasReply
  }

  // ---------------------------------------------------------------------------
  // Numbered listings
  // ---------------------------------------------------------------------------

  /** `${i + 1}. ${entry}\n` */
  function ListingLine(i: nat, entry: string): string {
    JsText.NatToString(i + 1) + ". " + entry + "\n"
  }

  /** The lines of a listing numbered from 1. */
  function NumberedList(entries: seq<string>): string {
    if entries == [] then ""
    else NumberedList(entries[..|entries| - 1]) + ListingLine(|entries| - 1, entries[|entries| - 1])
  }

  /** The listing of the first k entries is a prefix of the whole listing, so the
      line numbered k + 1 holds entry k and follows the first k lines. */
  lemma {:induction false} NumberedListLine(entries: seq<string>, k: nat)
    requires k < |entries|
    ensures NumberedList(entries[..k]) + ListingLine(k, entries[k]) <= NumberedList(entries)
  {
    var n := |entries|;
    var front := entries[..n - 1];
    assert entries[..n] == entries;
    if k == n - 1 {
      assert entries[..k] == front;
    } else {
      assert front[..k] == entries[..k] && front[k] == entries[k];
      NumberedListLine(front, k);
      PrefixAppend(NumberedList(front[..k]) + ListingLine(k, front[k]), NumberedList(front), ListingLine(n - 1, entries[n - 1]));
    }
  }

  lemma PrefixAppend(a: string, b: string, c: string)
    requires a <= b
    ensures a <= b + c
  {
    assert (b + c)[..|b|] == b;
  }

  /** The loop that appends one numbered line per entry to a header. */
  method BuildListing(header: string, entries: seq<string>) returns (message: string)
    ensures message == header + NumberedList(entries)
  {
    message := header;
    var i := 0;
    while i < |entries|
      invariant 0 <= i <= |entries|
      invariant message == header + NumberedList(entries[..i])
    {
      assert entries[..i + 1][..i] == entries[..i];
      assert NumberedList(entries[..i + 1]) == NumberedList(entries[..i]) + ListingLine(i, entries[i]);
      Helpers.AppendAssoc(header, NumberedList(entries[..i]), ListingLine(i, entries[i]));
      message := message + ListingLine(i, entries[i]);
      i := i + 1;
    }
    assert entries[..|entries|] == entries;
  }

  function CategoryNames(cs: seq<Category>): (r: seq<string>)
    ensures |r| == |cs| && forall k :: 0 <= k < |cs| ==> r[k] == cs[k].name
  {
    seq(|cs|, k requires 0 <= k < |cs| => cs[k].name)
  }

  /** Each product listed as `name | nutrition - price р.` (without the nutrition part
      when it is empty). */
  function ProductEntries(ps: seq<Product>): (r: seq<string>)
    ensures |r| == |ps| && forall k :: 0 <= k < |ps| ==> r[k] == Keyboards.ProductLabel(ps[k])
  {
    seq(|ps|, k requires 0 <= k < |ps| => Keyboards.ProductLabel(ps[k]))
  }

  const DeleteCategoryHeader := "🗑 Выберите категорию для удаления (отправьте номер):\n\n"
  const ProductCategoryHeader := "📦 Выберите категорию для товара (отправьте номер):\n\n"
  const DeleteProductHeader := "🗑 Выберите товар для удаления (отправьте номер):\n\n"

  // ---------------------------------------------------------------------------
  // handleSeniorCommands
  // ---------------------------------------------------------------------------

  /** The user row exists and its role is at least 'senior'. */
  predicate SeniorGate(store: Store, vkUserId: int)
    reads store
  {
    store.GetUser(vkUserId).Some? && Helpers.HasPermission(store.GetUser(vkUserId).value.role, "senior")
  }

  /** The senior commands, each with its two spellings. */
  datatype SeniorCommand = Stats | AddStaff | Announce | NoSeniorCommand

  function SeniorCommandOf(t: Option<string>): (c: SeniorCommand)
    ensures c == Stats <==> t == Some("/статистика") || t == Some("/stats")
    ensures c == AddStaff <==> t == Some("/добавить") || t == Some("/add")
    ensures c == Announce <==> t == Some("/объявление") || t == Some("/announce")
  {
    if t == Some("/статистика") || t == Some("/stats") then Stats
    else if t == Some("/добавить") || t == Some("/add") then AddStaff
    else if t == Some("/объявление") || t == Some("/announce") then Announce
    else NoSeniorCommand
  }

  /** What a recognised command answers: the message kind, and the dialogue state it
      stores, if any. */
  datatype Reply = Reply(kind: Kind, state: Option<StateRow>)

  /** `setUserState` when the reply stores a state. */
  function WithState(states: map<int, StateRow>, vkUserId: int, state: Option<StateRow>): map<int, StateRow> {
    if state.Some? then states[vkUserId := state.value] else states
  }

  function SeniorReply(c: SeniorCommand): Option<Reply> {
    match c
    case Stats => Some(Reply(StaffStats, None))
    case AddStaff => Some(Reply(AskStaffId, Some(StateRow("senior_adding_staff", EmptyData))))
    case Announce => Some(Reply(AskAnnouncement, Some(StateRow("senior_creating_announcement", EmptyData))))
    case NoSeniorCommand => None
  }

  /** `handleSeniorCommands(message, vkUserId)`: false with no effect unless the gate
      passes; then the statistics, add-staff and announcement commands each send one
      message to the message's peer and return true, the latter two also storing the
      next dialogue state; anything else returns false. */
  method HandleSeniorCommands(store: Store, api: Outbox, message: AdminMessage, vkUserId: int) returns (handled: bool)
    modifies store`userStates, api
    ensures var reply := SeniorReply(SeniorCommandOf(CommandText(message)));
            && (handled <==> old(SeniorGate(store, vkUserId)) && reply.Some?)
            && (!handled ==> store.userStates == old(store.userStates) && api.sent == old(api.sent))
            && (handled ==> store.userStates == WithState(old(store.userStates), vkUserId, reply.value.state)
                            && api.sent == old(api.sent) + [Sent(PeerOf(message), reply.value.kind, None)])
  {
    var text := CommandText(message);
    var user := store.GetUser(vkUserId);
    if user.None? || !Helpers.HasPermission(user.value.role, "senior") {
      return false;
    }
    match SeniorCommandOf(text)
    case Stats =>
      api.Send(PeerOf(message), StaffStats, None);
      return true;
    case AddStaff =>
      api.Send(PeerOf(message), AskStaffId, None);
      store.SetUserState(vkUserId, "senior_adding_staff", EmptyData);
      return true;
    case Announce =>
      api.Send(PeerOf(message), AskAnnouncement, None);
      store.SetUserState(vkUserId, "senior_creating_announcement", EmptyData);
      return true;
    case NoSeniorCommand =>
      return false;
  }

  // ---------------------------------------------------------------------------
  // handleManagementCommands
  // ---------------------------------------------------------------------------

  /** The user row exists and its role is exactly 'management'. */
  predicate ManagementGate(store: Store, vkUserId: int)
    reads store
  {
    store.GetUser(vkUserId).Some? && store.GetUser(vkUserId).value.role == "management"
  }

  /** With the tables valid, the category listings number the categories by name:
      line k + 1 holds category k, and no category listed after it sorts before it. */
  lemma CategoryListingByName(categories: seq<Category>, k: nat)
    requires CategoriesByName(categories) && k < |categories|
    ensures var names := CategoryNames(categories);
            && NumberedList(names[..k]) + ListingLine(k, categories[k].name) <= NumberedList(names)
            && forall j :: k < j < |names| ==> NameLe(names[k], names[j])
  {
    NumberedListLine(CategoryNames(categories), k);
  }

  /** With the tables valid, the product listing numbers the products by name: line
      k + 1 holds product k, and no product listed after it sorts before it. */
  lemma ProductListingByName(products: seq<Product>, k: nat)
    requires ProductsByName(products) && k < |products|
    ensures var entries := ProductEntries(products);
            && NumberedList(entries[..k]) + ListingLine(k, Keyboards.ProductLabel(products[k])) <= NumberedList(entries)
            && forall j :: k < j < |products| ==> NameLe(products[k].name, products[j].name)
  {
    NumberedListLine(ProductEntries(products), k);
  }

  /** The management commands, in the order they are tested. */
  datatype ManagementCommand = AddCategory | DeleteCategory | AddProduct | DeleteProduct | CreatePost | NoCommand

  /** `text === exact || text.startsWith(prefix)` for each command in turn (the post
      command has no prefix form). No text passes two of the tests, so each command is
      recognised exactly when its own test holds, whatever the order of the tests. */
  /** Two strings that differ at a position both have cannot both begin `t`. */
  lemma PrefixesExclusive(t: string, p: string, q: string, k: nat)
    requires k < |p| && k < |q| && p[k] != q[k]
    ensures !(p <= t && q <= t)
  {
  }

  /** No text passes the prefix tests of two different commands. */
  lemma ManagementPrefixesExclusive(t: string)
    ensures !(JsText.StartsWith(t, "/add_cat") && JsText.StartsWith(t, "/del_cat"))
    ensures !(JsText.StartsWith(t, "/add_cat") && JsText.StartsWith(t, "/add_prod"))
    ensures !(JsText.StartsWith(t, "/add_cat") && JsText.StartsWith(t, "/del_prod"))
    ensures !(JsText.StartsWith(t, "/del_cat") && JsText.StartsWith(t, "/add_prod"))
    ensures !(JsText.StartsWith(t, "/del_cat") && JsText.StartsWith(t, "/del_prod"))
    ensures !(JsText.StartsWith(t, "/add_prod") && JsText.StartsWith(t, "/del_prod"))
  {
    PrefixesExclusive(t, "/add_cat", "/del_cat", 1);
    PrefixesExclusive(t, "/add_cat", "/add_prod", 5);
    PrefixesExclusive(t, "/add_cat", "/del_prod", 1);
    PrefixesExclusive(t, "/del_cat", "/add_prod", 1);
    PrefixesExclusive(t, "/del_cat", "/del_prod", 5);
    PrefixesExclusive(t, "/add_prod", "/del_prod", 1);
  }

  function ManagementCommandOf(t: string): (c: ManagementCommand)
    ensures c == AddCategory <==> t == "/добавить_категорию" || JsText.StartsWith(t, "/add_cat")
    ensures c == DeleteCategory <==> t == "/удалить_категорию" || JsText.StartsWith(t, "/del_cat")
    ensures c == AddProduct <==> t == "/добавить_товар" || JsText.StartsWith(t, "/add_prod")
    ensures c == DeleteProduct <==> t == "/удалить_товар" || JsText.StartsWith(t, "/del_prod")
    ensures c == CreatePost <==> t == "/пост" || t == "/post"
  {
    ManagementPrefixesExclusive(t);
    if t == "/добавить_категорию" || JsText.StartsWith(t, "/add_cat") then AddCategory
    else if t == "/удалить_категорию" || JsText.StartsWith(t, "/del_cat") then DeleteCategory
    else if t == "/добавить_товар" || JsText.StartsWith(t, "/add_prod") then AddProduct
    else if t == "/удалить_товар" || JsText.StartsWith(t, "/del_prod") then DeleteProduct
    else if t == "/пост" || t == "/post" then CreatePost
    else NoCommand
  }

  /** The answer to each management command: the post and add-category commands ask
      for text; the listings number the table's rows from 1 and store them in the
      dialogue state, and an empty table gets one message and no state. */
  function ManagementReply(c: ManagementCommand, categories: seq<Category>, products: seq<Product>): Option<Reply> {
    match c
    case AddCategory => Some(Reply(AskCategoryName, Some(StateRow("management_adding_category", EmptyData))))
    case DeleteCategory =>
      if categories == [] then Some(Reply(NoCategoriesToDelete, None))
      else Some(Reply(DeleteCategoryList(DeleteCategoryHeader + NumberedList(CategoryNames(categories))),
                      Some(StateRow("management_deleting_category", EmptyData.(categories := Some(categories))))))
    case AddProduct =>
      if categories == [] then Some(Reply(CreateCategoriesFirst, None))
      else Some(Reply(ProductCategoryList(ProductCategoryHeader + NumberedList(CategoryNames(categories))),
                      Some(StateRow("management_adding_product_cat", EmptyData.(categories := Some(categories))))))
    case DeleteProduct =>
      if products == [] then Some(Reply(NoProductsToDelete, None))
      else Some(Reply(DeleteProductList(DeleteProductHeader + NumberedList(ProductEntries(products))),
                      Some(StateRow("management_deleting_product", EmptyData.(products := Some(products))))))
    case CreatePost => Some(Reply(AskPostText, Some(StateRow("management_creating_post", EmptyData))))
    case NoCommand => None
  }

  /** `handleManagementCommands(message, vkUserId)`: false with no effect unless the
      user's role is exactly 'management'. Past the gate, testing the commands calls
      `text.startsWith`, which throws when the message has no text. Otherwise a
      recognised command sends its reply to the message's peer, stores its state and
      returns true, and anything else returns false. */
  method HandleManagementCommands(store: Store, api: Outbox, message: AdminMessage, vkUserId: int)
    returns (handled: bool, threw: bool)
    modifies store`userStates, api
    ensures threw <==> old(ManagementGate(store, vkUserId)) && CommandText(message).None?
    ensures handled ==> old(ManagementGate(store, vkUserId)) && !threw
    ensures !handled ==> store.userStates == old(store.userStates) && api.sent == old(api.sent)
    ensures old(ManagementGate(store, vkUserId)) && CommandText(message).Some? ==>
              var reply := ManagementReply(ManagementCommandOf(CommandText(message).value), store.categories, store.products);
              && (handled <==> reply.Some?)
              && (handled ==> store.userStates == WithState(old(store.userStates), vkUserId, reply.value.state)
                              && api.sent == old(api.sent) + [Sent(PeerOf(message), reply.value.kind, None)])
  {
    handled, threw := false, false;
    var text := CommandText(message);
    var user := store.GetUser(vkUserId);
    if user.None? || user.value.role != "management" {
      return;
    }
    if text.None? {
      threw := true;
      return;
    }
    var reply := ManagementAnswer(ManagementCommandOf(text.value), store.categories, store.products);
    if reply.Some? {
      if reply.value.state.Some? {
        store.SetUserState(vkUserId, reply.value.state.value.state, reply.value.state.value.data);
      }
      api.Send(PeerOf(message), reply.value.kind, None);
      handled := true;
    }
  }

  /** The branch of `handleManagementCommands` that builds each command's answer, the
      listings by the numbering loop. */
  method ManagementAnswer(cmd: ManagementCommand, categories: seq<Category>, products: seq<Product>)
    returns (reply: Option<Reply>)
    ensures reply == ManagementReply(cmd, categories, products)
  {
    match cmd
    case AddCategory =>
      reply := Some(Reply(AskCategoryName, Some(StateRow("management_adding_category", EmptyData))));
    case DeleteCategory =>
      if |categories| == 0 {
        reply := Some(Reply(NoCategoriesToDelete, None));
      } else {
        var listing := BuildListing(DeleteCategoryHeader, CategoryNames(categories));
        reply := Some(Reply(DeleteCategoryList(listing), Some(StateRow("management_deleting_category", EmptyData.(categories := Some(categories))))));
      }
    case AddProduct =>
      if |categories| == 0 {
        reply := Some(Reply(CreateCategoriesFirst, None));
      } else {
        var listing := BuildListing(ProductCategoryHeader, CategoryNames(categories));
        reply := Some(Reply(ProductCategoryList(listing), Some(StateRow("management_adding_product_cat", EmptyData.(categories := Some(categories))))));
      }
    case DeleteProduct =>
      if |products| == 0 {
        reply := Some(Reply(NoProductsToDelete, None));
      } else {
        var listing := BuildListing(DeleteProductHeader, ProductEntries(products));
        reply := Some(Reply(DeleteProductList(listing), Some(StateRow("management_deleting_product", EmptyData.(products := Some(products))))));
      }
    case CreatePost =>
      reply := Some(Reply(AskPostText, Some(StateRow("management_creating_post", EmptyData))));
    case NoCommand =>
      reply := None;
  }

  // ---------------------------------------------------------------------------
  // handlePostCommand
  // ---------------------------------------------------------------------------

  /** `handlePostCommand(message, vkUserId)`: false without a replied-to message or
      without at least 'senior' permission; otherwise it only confirms. */
  method HandlePostCommand(store: Store, api: Outbox, message: AdminMessage, vkUserId: int) returns (handled: bool)
    modifies api
    ensures handled <==> HasReply(message) && SeniorGate(store, vkUserId)
    ensures !handled ==> api.sent == old(api.sent)
    ensures handled ==> api.sent == old(api.sent) + [Sent(PeerOf(message), PostPublished, None)]
  {
    if !HasReply(message) {
      return false;
    }
    var user := store.GetUser(vkUserId);
    if user.None? || !Helpers.HasPermission(user.value.role, "senior") {
      return false;
    }
    api.Send(PeerOf(message), PostPublished, None);
    return true;
  }

  /** Given the text string instead of a message object, the senior handler never
      recognises a command, and the management handler either stops at its gate or
      throws; neither writes a state or sends anything. */
  lemma TextArgumentHasNoCommand(s: string)
    ensures SeniorCommandOf(CommandText(TextArgument(s))) == NoSeniorCommand
    ensures CommandText(TextArgument(s)).None?
    ensures !HasReply(TextArgument(s))
  {
  }
}
