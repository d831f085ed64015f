# VK courier bot — a Dafny model

This project models the core of a VK (VKontakte) delivery bot. Clients talk to the bot in
private messages: they browse a catalogue, fill a cart, enter a nickname and an address, and
confirm an order. Staff work in seven group chats. The bot discovers the role of each chat from
its title, posts new orders to the dispatch chat and lets a courier take an order and give a
delivery time. It also counts staff activity and runs a few admin commands. The Callback API
endpoint answers every event with HTTP 200.

The model is split into one module per source file, plus three support modules.

- `Options` holds the `Option` type.
- `JsText` models the JavaScript string builtins the bot relies on:
  - `trim`;
  - `toLowerCase` on the ASCII letters and the basic Cyrillic capitals (other scripts are
    listed under "Left out");
  - `includes` and `startsWith`;
  - `parseInt` and number-to-string conversion;
  - truthiness.
- `Tables` holds the rows of the Supabase tables.
- `Keyboards` (`lib/vk-keyboards.js`) builds the inline keyboards. Payloads are decoded records
  with one field per JSON key, so the keys the keyboards write stay apart from the keys the
  handlers read.
- `Helpers` (`lib/vk-helpers.js`) covers:
  - the cart total;
  - the courier checklist, built by a loop over a tally;
  - the finance report, built by accumulator loops with the floors done in exact integer
    arithmetic;
  - the validators, the role ladder and the name lookups.
- `Database` (`lib/vk-database.js`) is the class `Store`. Its fields are the tables, and each
  query and write is a method that changes only its own table. Every method states the new
  table as a function of the old one. The predicate `Store.Valid` holds that the keys are
  unique, the order totals match their items, and the categories and products are stored in
  the name order `getCategories`, `getProductsByCategory` and `getAllProducts` ask for (no
  operation of the bot writes those two tables). Every method preserves it.
- `VkApi` (`lib/vk-api.js`):
  - `sendMessage` is an append to an outbox of `(peer, kind, keyboard)` records. A message
    is recorded by its kind and the ids it carries, not by its text.
  - It also holds the title fallback of `getConversationMembers` and the chat id of
    `kickUser`.
- `Admin` (`lib/vk-admin.js`) covers the role gates, the command vocabulary, the dialogue state
  written and the listings built in loops.
- `Handlers` (`lib/vk-handlers.js`) has two parts.
  - Each handler is a function on a `World`, a value made of the tables, the `orderTimers` map
    and the messages sent so far. An `Outcome` pairs the resulting world with whether the
    handler threw.
  - The class `Bot` owns the store, the outbox and the `orderTimers` map. Each of its methods
    performs the handler's steps and is proved to leave exactly the world that function
    describes. A timer firing is an explicit event, `Bot.FireTimer`.
- `HandlerProperties` states, as lemmas over those functions, what the handlers promise and
  where the code departs from what it evidently means.
- `Webhook` (`app/api/vk-webhook/route.js`) models the POST endpoint.

Inputs from outside are parameters:
- the clock and the day number;
- what `getConversationMembers` returns;
- the configured confirmation code and commission percent.

## Model

| member | source | states |
|---|---|---|
| JsText.TrimStart | lib/vk-handlers.js:15 | the result is a suffix of the input, what was dropped is all whitespace, and it does not start with whitespace |
| JsText.TrimEnd | lib/vk-handlers.js:15 | the result is a prefix of the input, what was dropped is all whitespace, and it does not end with whitespace |
| JsText.Trim | lib/vk-handlers.js:15 | the result is a slice of the input with only whitespace cut off on either side, and it neither starts nor ends with whitespace |
| JsText.TrimEmptyIffAllSpace | lib/vk-helpers.js:285 | `s.trim()` is empty exactly when every character of `s` is whitespace, the test the validators make |
| JsText.AllSpaceTrimStart | lib/vk-helpers.js:285 | trimming the start of an all-whitespace string leaves nothing |
| JsText.TrimIdempotent | lib/vk-handlers.js:15 | trimming twice is trimming once |
| JsText.LowerChar | lib/vk-handlers.js:39 | `toLowerCase` on one character for ASCII and basic Cyrillic: A–Z and А–Я move up by 32, Ѐ–Џ by 80; every other character is kept (a restriction, see "Left out") |
| JsText.ToLower | lib/vk-handlers.js:39 | the result has the same length, and each character is lowered on its own |
| JsText.ToLowerIdempotent | lib/vk-handlers.js:296 | lowering twice is lowering once |
| JsText.Includes | lib/vk-handlers.js:424-430 | `includes` holds exactly when the substring occurs at some position |
| JsText.ShiftOccurs | lib/vk-handlers.js:424-430 | when `sub` is not a prefix of `s`, it occurs in `s` exactly when it occurs in `s` without its first character |
| JsText.DigitValue | lib/vk-handlers.js:271 | a digit's value is below the radix; in base 10 the characters with a value are exactly '0'–'9', each worth its offset from '0' |
| JsText.DigitPrefixLen | lib/vk-handlers.js:271 | the length of the longest prefix of digits: all before it are digits and the character at it is not |
| JsText.ParseUnsigned | lib/vk-handlers.js:271 | an unsigned `parseInt` gives NaN or a non-negative value |
| JsText.DigitsValueNonNegative | lib/vk-handlers.js:271 | the value of a digit string is never negative |
| JsText.NatToStringDigits | lib/vk-handlers.js:271 | printing a natural number gives at least one digit and no leading zero |
| JsText.NatToStringValue | lib/vk-handlers.js:271 | printing a natural number gives all digits, whose value is that number |
| JsText.ParseUnsignedNat | lib/vk-handlers.js:271 | `parseInt(String(n))` is `n` for every natural number |
| JsText.ParseUnsignedDecimal | lib/vk-handlers.js:271 | a digit string without a leading zero parses to its own value |
| JsText.ParseIntRoundTrip | lib/vk-helpers.js:309-310 | `parseInt(String(n))` is `n` for every integer, negative ones included |
| JsText.FirstDigitIndex | lib/vk-helpers.js:360 | the position of the first digit, or the length when there is none: nothing before it is a digit |
| JsText.FirstDigitRun | lib/vk-helpers.js:360 | what `/(\d+)/` captures: a non-empty run of digits, with no digit before it and none right after it |
| JsText.DigitRunAt | lib/vk-helpers.js:360 | a digit at position `i` starts a run that ends at the first non-digit after it |
| Tables.ItemsOfOrder | lib/vk-database.js:351-357 | `getOrderItems` returns no more rows than the table has, and each belongs to the order |
| Tables.ItemsOfOrderMembers | lib/vk-database.js:351-357 | a row is among the order's items exactly when it is in the table and refers to the order |
| Tables.ItemsTotalsStep | lib/vk-helpers.js:105-113 | the price and cost sums over a prefix of items grow by one item's line price and line cost |
| Tables.ItemsOfOrderAppendOther | lib/vk-database.js:351-357 | appending rows of other orders leaves an order's items unchanged |
| Tables.ItemsOfOrderAppendOwn | lib/vk-database.js:351-357 | when an order had no items, appending its own rows makes them its items exactly |
| Tables.ItemsOfOrderNone | lib/vk-database.js:351-357 | an order no row refers to has no items |
| Keyboards.AcceptOrderKeyboard | lib/vk-keyboards.js:175-182 | every button carries the order id under `orderId` and the command `accept_order`, and has no `order_id` and no `action` |
| Keyboards.CourierOrderKeyboard | lib/vk-keyboards.js:185-200 | an inline keyboard of three rows of one button, with the commands `order_ready`, `arrived` and `complete_order` in that order; every button carries the order id and neither `order_id` nor `action` |
| Keyboards.CategoriesKeyboard | lib/vk-keyboards.js:34-59 | the row-building loop yields the categories' two-button grid followed by one back row carrying `backCommand` |
| Keyboards.CategoryGridInOrder | lib/vk-keyboards.js:38-52 | the grid has ceil(n/2) rows, every row but the last holds two buttons and the last holds one or two, and read row by row the buttons are the categories in order, each carrying its id |
| Keyboards.CategoryGridTail | lib/vk-keyboards.js:38-52 | the first row holds the first two categories, and the rest of the grid is the grid of the rest |
| Keyboards.CategoryButtonsTail | lib/vk-keyboards.js:38-52 | the button list of the categories is the first two buttons followed by the list of the rest |
| Keyboards.ProductRowsLoop | lib/vk-keyboards.js:67-82 | the loop pushes one single-button row per product in `products[start..end)`, in order |
| Keyboards.ProductsKeyboard | lib/vk-keyboards.js:62-116 | the keyboard is the page's product rows, then the pagination row when it is non-empty, then the back-to-categories row |
| Keyboards.PageLayoutAt | lib/vk-keyboards.js:107-115 | the rows come first and in order, the pagination row follows only when it is non-empty, and the last row is always "to categories" |
| Keyboards.PageProductsAt | lib/vk-keyboards.js:64-68 | the page holds exactly the products from `page*itemsPerPage` to `min(start+itemsPerPage, n)`, in order |
| Keyboards.ProductsLayoutRows | lib/vk-keyboards.js:62-116 | the keyboard has one row per product shown, plus the pagination row when there is one, plus the back row, and row k holds product k of the page |
| Keyboards.ProductsLayoutNavigation | lib/vk-keyboards.js:84-115 | with pagination, its row has one or two buttons: "previous" (page−1) comes first exactly when page > 0, and "next" (page+1) comes last exactly when the page ends before the list does. The last row is "to categories" |
| Keyboards.ProductButtonShape | lib/vk-keyboards.js:69-80 | each product row is one button whose caption is the prefix of the full label of length min(40, label length) and whose payload is the `add_to_cart` command with the product's id |
| Keyboards.PaginationShape | lib/vk-keyboards.js:84-109 | the pagination row is non-empty exactly when there is a previous or a next page, holds at most two buttons, and has the previous/next buttons under the same conditions |
| Keyboards.RemoveItemKeyboard | lib/vk-keyboards.js:141-156 | an inline keyboard with one red button per cart line, in order, captioned "❌ " and the line's name, whose payload is exactly the command 'confirm_remove' with the line's position; then one back row to the cart |
| Keyboards.ProductRowsSnoc | lib/vk-keyboards.js:67-82 | one more product adds exactly its row at the end |
| Helpers.FormatCart | lib/vk-helpers.js:4-26 | the loop's total is the sum of price × quantity over the cart, 0 for an empty cart |
| Helpers.CartTotalAppend | lib/vk-helpers.js:10-18 | the cart total of two carts together is the sum of their totals |
| Helpers.CartTotalNonNegative | lib/vk-helpers.js:10-18 | non-negative prices and quantities give a non-negative total |
| Helpers.Find | lib/vk-helpers.js:53-63 | the tally lookup finds an entry with that name, or there is none |
| Helpers.BumpKeys | lib/vk-helpers.js:53-63 | a tally step keeps the existing names in place and appends the name at the end with its quantity exactly when it was new |
| Helpers.FindAfterBump | lib/vk-helpers.js:53-63 | after a tally step, a name is present exactly when it was present before or is the one tallied |
| Helpers.TalliedKeys | lib/vk-helpers.js:48-78 | the checklist holds a name exactly when some item has that product name |
| Helpers.TalliedKeysAt | lib/vk-helpers.js:48-78 | the same, for one name |
| Helpers.NamedSnoc | lib/vk-helpers.js:53-63 | a name occurs in the items exactly when it occurs in all but the last item, or is the last item's name |
| Helpers.TalliedDistinct | lib/vk-helpers.js:48-78 | each product name appears on the checklist at most once |
| Helpers.QuantityOfUnnamed | lib/vk-helpers.js:53-63 | a name no item has totals 0 |
| Helpers.TalliedQuantities | lib/vk-helpers.js:53-63 | each checklist entry's quantity is the sum of the quantities of the items with that name |
| Helpers.FirstIndex | lib/vk-helpers.js:53-63 | the position of a name's first item |
| Helpers.TalliedFirstAppearanceOrder | lib/vk-helpers.js:48-78 | every entry names some item, and entries come in the order of their names' first appearance in the items |
| Helpers.BumpSum | lib/vk-helpers.js:53-63 | a tally step adds its quantity to the sum of all quantities |
| Helpers.TalliedSum | lib/vk-helpers.js:48-78 | the checklist quantities sum to the items' total quantity |
| Helpers.TallyItems | lib/vk-helpers.js:53-63 | the `Map` loop yields the tally of the items |
| Helpers.CreateCourierChecklist | lib/vk-helpers.js:48-78 | one unchecked entry per distinct product name in first-appearance order, with ids 0, 1, 2, …, and the message built from them |
| Helpers.UpdateChecklistMessage | lib/vk-helpers.js:81-91 | the message is the header followed by one line per entry, in order |
| Helpers.FindPayment | lib/vk-helpers.js:117-126 | the payments lookup finds the entry of that courier, or there is none |
| Helpers.CreditNew | lib/vk-helpers.js:117-126 | a courier's first credit appends a zeroed entry for them and then credits it |
| Helpers.CreditExisting | lib/vk-helpers.js:117-126 | a credit to a courier who has an entry adds to that entry alone |
| Helpers.CreditItemsStep | lib/vk-helpers.js:105-127 | crediting one more item is a credit of that item's cost and floor(0.8 × profit) |
| Helpers.CalculateFinances | lib/vk-helpers.js:97-155 | income and cost are the sums over the orders' items; profit is their difference; the payments are the per-courier credits; the organisation share, commission and net profit follow the source's formulas |
| Helpers.AddOrderItems | lib/vk-helpers.js:105-127 | the inner loop adds the order's line prices and line costs to the totals and credits each item to the order's courier |
| Helpers.CreditCourier | lib/vk-helpers.js:117-126 | the new payments are the old ones with the courier credited |
| Helpers.SumOrganizationShares | lib/vk-helpers.js:133-136 | the loop sums profit minus salary over the couriers' entries |
| Helpers.CreditEffect | lib/vk-helpers.js:117-126 | a credit raises that courier's salary and cost price by the amounts and leaves every other courier's unchanged |
| Helpers.CreditItemsEffect | lib/vk-helpers.js:105-127 | crediting a courier's items raises only that courier's salary and cost, by the items' totals |
| Helpers.PaymentsArePerCourier | lib/vk-helpers.js:97-130 | each courier's salary is the sum of floor(0.8 × item profit) over that courier's orders' items only, and their cost price is the matching cost sum |
| Helpers.OrgSumCountsProfitPerCourier | lib/vk-helpers.js:133-136 | the organisation sum counts the whole profit once per courier, minus all salaries |
| Helpers.CommissionBounds | lib/vk-helpers.js:142-144 | for a percent between 0 and 100, the commission lies between 0 and the share, and net profit is non-negative |
| Helpers.CommissionPercentDefault | lib/vk-helpers.js:142 | a missing or zero percent becomes 5, and any other configured value is used as given |
| Helpers.ValidateText | lib/vk-helpers.js:284-302 | a missing or blank text gets the empty-text error, and an over-long one the length error; the text is valid exactly when it is present, not blank and within the limit |
| Helpers.ValidateUsername | lib/vk-helpers.js:284-292 | valid exactly when present, not blank and at most 100 characters long before trimming |
| Helpers.ValidateLocation | lib/vk-helpers.js:294-302 | valid exactly when present, not blank and at most 200 characters long before trimming |
| Helpers.ValidateProductData | lib/vk-helpers.js:304-325 | accepted exactly when the name is not blank, the price parses to more than 0 and the cost price parses to between 0 and the price; those parsed values are returned |
| Helpers.ProductDataRoundTrip | lib/vk-helpers.js:304-325 | a non-blank name with printed numbers 0 < price and 0 ≤ cost ≤ price is accepted with those very numbers |
| Helpers.ParseEstimatedTime | lib/vk-helpers.js:358-365 | text with a digit yields its first digit run followed by " минут"; text without one is returned unchanged |
| Helpers.RoleLevel | lib/vk-helpers.js:374-376 | `indexOf` in the role ladder: the role's position, or −1 exactly when it is not on the ladder |
| Helpers.PermissionFollowsLadder | lib/vk-helpers.js:373-379 | between known roles, permission holds exactly when the user's rung is at or above the required one |
| Helpers.PermissionReflexive | lib/vk-helpers.js:373-379 | every known role satisfies itself |
| Helpers.UnknownUserRoleFails | lib/vk-helpers.js:373-379 | an unknown user role fails every known requirement |
| Helpers.UnknownRequiredRoleHolds | lib/vk-helpers.js:373-379 | an unknown required role is satisfied by every user role |
| Helpers.PermissionTransitive | lib/vk-helpers.js:373-379 | permission is transitive |
| Helpers.GetRoleName | lib/vk-helpers.js:382-392 | a role gets a name other than "Неизвестно" exactly when it is one of the five |
| Helpers.GetChatTypeName | lib/vk-helpers.js:413-425 | a chat type gets a name other than "Неизвестный тип" exactly when it is one of the seven |
| Helpers.PositiveIds | lib/vk-helpers.js:401 | the filter keeps exactly the positive ids |
| Helpers.ChatsForRoleNested | lib/vk-helpers.js:395-405 | a courier's chats are a prefix of a senior's; every positive chat of a senior or trainee is a management chat; management gets only positive ids; clients and unknown roles get none |
| Database.FindProduct | lib/vk-database.js:182-189 | the product with that id, or none exists |
| Database.FindCategory | lib/vk-database.js:146-153 | the category with that id, or none exists |
| Database.ProductsInCategory | lib/vk-database.js:173-180 | exactly the products of that category |
| Database.ProductsInCategoryByName | lib/vk-database.js:173-180 | filtering a name-ordered table by category keeps the name order that `.order('name')` asks for |
| Database.NameLeTotal | lib/vk-database.js:142 | the name order relates any two names one way or the other |
| Database.NameLeAntisymmetric | lib/vk-database.js:142 | names ordered both ways are equal |
| Database.FindOrder | lib/vk-database.js:320-327 | the position of an order with that id, or none exists |
| Database.FindChat | lib/vk-database.js:111-118 | the position of a chat with that peer id, or none exists |
| Database.ChatsOfType | lib/vk-database.js:120-127 | exactly the chats of that type |
| Database.FindCartRow | lib/vk-database.js:227-232 | the position of the cart row for that user and product, or none exists |
| Database.WithoutRow | lib/vk-database.js:246-251 | exactly the rows whose id differs |
| Database.WithoutUser | lib/vk-database.js:253-258 | exactly the rows of other users |
| Database.CartItemsOf | lib/vk-database.js:217-223 | the user's cart rows and no others, every one of them present, each joined with its product or with nothing when the product is gone |
| Database.CartAddedEffect | lib/vk-database.js:225-244 | afterwards the user holds the product; existing rows keep their ids and keys; one row is appended, with quantity q, exactly when none existed |
| Database.ClearedCartItems | lib/vk-database.js:253-258 | after clearing, the user's cart is empty and every other user's cart is unchanged |
| Database.AddKeepsCartValid | lib/vk-database.js:225-244 | adding to the cart keeps row ids and (user, product) pairs unique |
| Database.WithoutRowValid | lib/vk-database.js:246-251 | deleting by id keeps the cart consistent |
| Database.WithoutUserValid | lib/vk-database.js:253-258 | deleting a user's rows keeps the cart consistent |
| Database.FindCartRowAppend | lib/vk-database.js:227-232 | appending a row can only add a match for that row's own user and product |
| Database.SnapshotItems | lib/vk-database.js:304-315 | one order item per cart item, copying the product's name, price, cost price and the quantity |
| Database.SnapshotTotals | lib/vk-database.js:286-315 | the items' price and cost sums equal the total price and total cost stored on the order |
| Database.CreateOrderKeepsValid | lib/vk-database.js:286-318 | inserting the order and its items keeps ids unique and each order's totals equal to its items' sums |
| Database.UpdateWhere | lib/vk-database.js:338-341 | each order with that id gets the updates, and every other order is unchanged |
| Database.UpdateKeepsOrdersValid | lib/vk-database.js:329-342 | a status update keeps ids, items and totals consistent |
| Database.StatusUpdateEffect | lib/vk-database.js:329-342 | the status is always set; courier id, courier name and time only when truthy; accepted_at changes only for 'accepted', completed_at only for 'completed'; nothing else changes |
| Database.ChatSavedEffect | lib/vk-database.js:102-109 | the upsert on peer id leaves one row for that peer with the new values, adds a row only for a new peer, and keeps the others |
| Database.ElapsedMinutes | lib/vk-database.js:404 | floor of elapsed milliseconds over 60000 |
| Database.StatusSet | lib/vk-database.js:384-392 | the user's row gets the status and the time, keeps minutes and name, and no other row changes |
| Database.ActivityTouched | lib/vk-database.js:394-426 | afterwards the user is online; an existing row adds the whole elapsed minutes and a new row starts at 0 for an employee; no other row changes |
| Database.MessageCounted | lib/vk-database.js:471-497 | the (user, day) counter goes up by one or starts at 1; no other counter changes |
| Database.UserCreated | lib/vk-database.js:25-32 | the upsert on vk_id sets name and role, keeps the user's blacklist date (none for a new user), so the blacklist answer is unchanged at every instant, and leaves other users alone |
| Database.StateOf | lib/vk-database.js:262-269 | a missing row reads as state null with empty data, and a present one as its state and data |
| Database.OrderById | lib/vk-database.js:320-327 | returns an order with that id, and one is returned whenever such an order exists |
| Database.ChatByPeer | lib/vk-database.js:111-118 | a chat is returned exactly when one with that peer id exists |
| Database.ChatByType | lib/vk-database.js:120-127 | `.single()` returns a chat exactly when there is one chat of the type, and it is of that type |
| Database.IncomeMatchesStoredTotals | lib/vk-helpers.js:97-130 | for consistent tables, the report's income equals the sum of the orders' stored totals |
| Database.Store.constructor | lib/vk-database.js:4-8 | the store starts from consistent tables, with categories and products in name order |
| Database.Store.GetUser | lib/vk-database.js:16-23 | the user row when there is one |
| Database.Store.CreateUser | lib/vk-database.js:25-32 | upserts the user row and changes no other table |
| Database.Store.AddToBlacklist | lib/vk-database.js:40-47 | an existing user's blacklist date becomes now plus the given days, so they are then blacklisted; missing users are untouched |
| Database.Store.SaveChat | lib/vk-database.js:102-109 | upserts the chat on peer id, after which `getChatByPeerId` returns it |
| Database.Store.GetProduct | lib/vk-database.js:182-189 | a product with the requested id, or none |
| Database.Store.AddToCart | lib/vk-database.js:225-244 | adds to the existing row's quantity or inserts a new row with the next id; no other table changes |
| Database.Store.RemoveFromCart | lib/vk-database.js:246-251 | deletes exactly the row with that row id |
| Database.Store.ClearCart | lib/vk-database.js:253-258 | deletes exactly the user's rows, leaving their cart empty |
| Database.Store.SetUserState | lib/vk-database.js:271-275 | upserts the single state row of the user, which then reads back as written |
| Database.Store.ClearUserState | lib/vk-database.js:277-282 | removes the user's state row, which then reads as null with empty data |
| Database.Store.CreateOrder | lib/vk-database.js:286-318 | throws, writing nothing, exactly when a cart item's product is gone; otherwise appends one 'pending' order with the cart's totals and one item per cart line |
| Database.Store.InsertOrderItems | lib/vk-database.js:304-315 | the loop appends one snapshot item per cart item, in order |
| Database.Store.UpdateOrderStatus | lib/vk-database.js:329-342 | applies the field-by-field updates to the order with that id only |
| Database.Store.CancelOrder | lib/vk-database.js:344-349 | sets that order's status to 'cancelled' and nothing else |
| Database.Store.SetUserStatus | lib/vk-database.js:384-392 | upserts the user's activity status and time |
| Database.Store.UpdateOnlineActivity | lib/vk-database.js:394-426 | read-then-update or insert of the activity row; the user is online afterwards |
| Database.Store.IncrementMessageCount | lib/vk-database.js:471-497 | read-then-update or insert of the day's counter |
| VkApi.Outbox.constructor | lib/vk-api.js:33-45 | nothing has been sent |
| VkApi.Outbox.Send | lib/vk-api.js:33-45 | appends exactly one record of the message |
| VkApi.ConversationTitle | lib/vk-api.js:67-87 | the chat settings' title when there are settings; otherwise "Chat " and the decimal local id when that id is truthy, and "Unknown Chat" when it is not or there is no conversation; every fallback is truthy |
| VkApi.ChatIdOf | lib/vk-api.js:89-94 | the chat id is never negative: the peer id less 2000000000 above that base, the absolute value below it |
| Admin.CommandText | lib/vk-admin.js:9 | the text of a string argument is undefined |
| Admin.NumberedListLine | lib/vk-admin.js:78-80 | the listing of the first k entries followed by line k is a prefix of the whole listing |
| Admin.BuildListing | lib/vk-admin.js:77-80 | the loop yields the header followed by the lines "1. …" to "n. …" |
| Admin.CategoryNames | lib/vk-admin.js:97-99 | the listing entries are the category names, in order |
| Admin.ProductEntries | lib/vk-admin.js:116-121 | the listing entries are the product labels, in order |
| Admin.SeniorCommandOf | lib/vk-admin.js:17-47 | each senior command is recognised exactly by its two spellings |
| Admin.HandleSeniorCommands | lib/vk-admin.js:8-50 | handled exactly when the user passes the senior gate and the text is a known command; then one state is written and one message sent; otherwise nothing changes |
| Admin.ManagementCommandOf | lib/vk-admin.js:62-133 | each of the five commands is recognised exactly when its own test holds: the full Russian name or the Latin prefix (`/add_cat`, `/del_cat`, `/add_prod`, `/del_prod`), and for a post one of its two exact spellings |
| Admin.ManagementPrefixesExclusive | lib/vk-admin.js:62-107 | no text starts with two of the four command prefixes, so the order of the tests decides nothing |
| Admin.CategoryListingByName | lib/vk-admin.js:69-99 | with the tables valid, line k + 1 of a category listing names category k, and no later category sorts before it |
| Admin.ProductListingByName | lib/vk-admin.js:108-122 | with the tables valid, line k + 1 of the product listing is product k's label, and no later product sorts before it |
| Admin.HandleManagementCommands | lib/vk-admin.js:53-136 | only role 'management' passes; a missing text then throws; otherwise it is handled exactly when a command matches, writing its state and sending one message; the listings follow the tables' name order when the store is valid (Admin.CategoryListingByName, Admin.ProductListingByName) |
| Admin.ManagementAnswer | lib/vk-admin.js:69-126 | the reply each management command makes, with the listing built by the loop, numbering the given rows in their order, or the empty-list message and no state |
| Admin.HandlePostCommand | lib/vk-admin.js:139-158 | handled exactly when there is a reply message and senior permission; it then only sends the confirmation |
| Admin.TextArgumentHasNoCommand | lib/vk-handlers.js:170-183 | given the text string, the handlers see no text, no command and no reply message |
| Handlers.ActiveOrdersOf | lib/vk-handlers.js:235-239 | exactly the client's orders with an active status, in table order |
| Handlers.Reversed | lib/vk-handlers.js:240 | the sequence read from its end: same length, position k holds element n - 1 - k |
| Handlers.ActiveOrdersOfSnoc | lib/vk-handlers.js:235-239 | a new row at the end of the table is added at the end of the filtered list when it qualifies |
| Handlers.ActiveOrdersNewestFirst | lib/vk-handlers.js:235-240 | exactly the client's orders with an active status, newest first: the table-order list reversed |
| Handlers.OrderIds | lib/vk-handlers.js:249-253 | the ids of the listed orders, in order |
| Handlers.FirstFive | lib/vk-handlers.js:241 | `.limit(5)`: the first five rows, or all when fewer |
| Handlers.MyOrderIds | lib/vk-handlers.js:234-256 | the ids of the first five newest active orders of the client (all when there are at most five); none exactly when the client has no active order |
| Handlers.MyOrderIdsFacts | lib/vk-handlers.js:234-246 | the listed ids are ids of active orders of the client, all of them when at most five, and the list is empty exactly when there is none |
| Handlers.ChatTypeOfTitle | lib/vk-handlers.js:424-430 | for each of the seven roles, the result is that role exactly when the title contains its word and none of the words tested before it (management, flood, dispatch, announcements, senior_staff, training, activity_log); none exactly when it contains none of the seven |
| Handlers.Bot.constructor | lib/vk-handlers.js:9 | the bot starts with no timers |
| Handlers.Bot.BuildShoppingList | lib/vk-handlers.js:562-565 | the loop yields one "name xN" line per order item |
| Handlers.Bot.ShowCatalog | lib/vk-handlers.js:199-207 | an empty catalogue gets a back button; otherwise the categories keyboard, in name order when the store is valid (HandlerProperties.CategoryKeyboardsByName) |
| Handlers.Bot.StartOrder | lib/vk-handlers.js:210-219 | with categories, sends the keyboard, in name order when the store is valid, and sets 'selecting_category'; without, only a notice |
| Handlers.Bot.ShowCart | lib/vk-handlers.js:222-231 | an empty cart gets a hint; otherwise the cart and its keyboard |
| Handlers.Bot.ShowMyOrders | lib/vk-handlers.js:234-256 | lists the client's up to five active orders, or says there are none |
| Handlers.Bot.ShowCategoryProducts | lib/vk-handlers.js:320-329 | page 0 of the category's products, the first five by name when the store is valid (HandlerProperties.CategoryPageByName); a category with products but no row throws |
| Handlers.Bot.HandleProductSelection | lib/vk-handlers.js:573-586 | an existing product is added to the cart with quantity 1; otherwise "not found" |
| Handlers.Bot.StartCheckout | lib/vk-handlers.js:528-537 | an empty cart is refused; otherwise asks for a nickname and sets 'entering_username' |
| Handlers.Bot.ConfirmOrder | lib/vk-handlers.js:332-350 | an empty cart resets the dialogue; otherwise asks for confirmation and stores name and address |
| Handlers.Bot.PlaceOrder | lib/vk-handlers.js:353-373 | performs `placeOrder`: the cart check, `createOrder`, the cart clear, the reset and the dispatch |
| Handlers.Bot.ConfirmPlacedOrder | lib/vk-handlers.js:364-369 | clears the cart and the state and tells the client the order number |
| Handlers.Bot.ResetDialogue | lib/vk-handlers.js:313-315 | clears the state and sends the menu |
| Handlers.Bot.SendOrderToDispatch | lib/vk-handlers.js:376-394 | only with a dispatch chat: posts the order there and arms its timer |
| Handlers.Bot.HandleOrderTimeout | lib/vk-handlers.js:397-410 | only for an existing pending order: asks its client again and sets 'confirming_order_relevance' |
| Handlers.Bot.FireTimer | lib/vk-handlers.js:389-392 | the timer callback: the entry stays, marked fired, and the timeout runs |
| Handlers.Bot.HandleAcceptOrder | lib/vk-handlers.js:500-525 | a missing or non-pending order is refused; otherwise the timer is removed and a known courier is asked for a time |
| Handlers.Bot.HandleDeliveryTimeEntered | lib/vk-handlers.js:540-570 | marks the order accepted and clears the courier's state, then throws for a courier without a row; otherwise notifies the client and sends the shopping list |
| Handlers.Bot.HandlePayloadAction | lib/vk-handlers.js:589-626 | dispatches on the payload's action |
| Handlers.Bot.RemoveCartRow | lib/vk-handlers.js:597-600 | deletes the cart row whose id is the user id, then shows the cart |
| Handlers.Bot.ClearUserCart | lib/vk-handlers.js:602-605 | clears the user's cart and says so |
| Handlers.Bot.HandleUserState | lib/vk-handlers.js:259-317 | dispatches on the stored state |
| Handlers.Bot.HandleAnswer | lib/vk-handlers.js:295-311 | a yes places the order, or re-runs the timeout check; any other answer cancels |
| Handlers.Bot.SelectCategory | lib/vk-handlers.js:272-275 | shows the category, its first five products by name when the store is valid, and then sets 'selecting_product' |
| Handlers.Bot.EnterUsername | lib/vk-handlers.js:278-285 | stores the name in 'entering_location' and asks for the address |
| Handlers.Bot.HandleCommand | lib/vk-handlers.js:82-113 | the command switch |
| Handlers.Bot.HandlePrivateMessage | lib/vk-handlers.js:38-114 | registers a new user; otherwise a start word resets the dialogue; otherwise the message is routed |
| Handlers.Bot.Route | lib/vk-handlers.js:60-113 | routes by payload category, then product, then action, then the stored state, then the command |
| Handlers.Bot.TryRegisterChat | lib/vk-handlers.js:413-452 | saves a chat whose title names a role and notifies the admin |
| Handlers.Bot.HandleActivityLog | lib/vk-handlers.js:144-155 | handles the three activity-log commands |
| Handlers.Bot.HandleChatCommand | lib/vk-handlers.js:143-195 | dispatches the group-chat commands in the source's order |
| Handlers.Bot.HandleChatMessage | lib/vk-handlers.js:117-196 | registers an unknown chat; ignores non-employees; counts the activity and runs the command |
| Handlers.Bot.RecordActivity | lib/vk-handlers.js:137-138 | the message count and the online activity of the sender |
| Handlers.Bot.HandleVKMessage | lib/vk-handlers.js:12-35 | checks the blacklist, then routes as private or group message |
| HandlerProperties.BlacklistedSenderOnlyNotified | lib/vk-handlers.js:21-25 | a blacklisted sender gets one notice, and nothing else changes |
| HandlerProperties.FirstContactOnlyRegisters | lib/vk-handlers.js:42-47 | a first private message creates a 'client' row with an empty name, sends only the welcome menu, and touches no other table |
| HandlerProperties.StartWordClearsState | lib/vk-handlers.js:53-57 | a known user's start word clears any state and shows the menu |
| HandlerProperties.CategoryPayloadBeforeState | lib/vk-handlers.js:60-63 | a category in the payload is shown before any stored state is looked at |
| HandlerProperties.UnknownStateIsReset | lib/vk-handlers.js:313-315 | a state without its own case clears the state with a notice |
| HandlerProperties.SelectingProductIsUnknown | lib/vk-handlers.js:259-317 | the 'selecting_product' state has no case, so it is reset too |
| HandlerProperties.CategoryChoiceAdvances | lib/vk-handlers.js:270-276 | a category with products chosen in 'selecting_category' moves on to 'selecting_product' with its id |
| HandlerProperties.AnyUsernameAccepted | lib/vk-handlers.js:278-285 | whatever name is typed, the state becomes 'entering_location' with the old data plus that name, and only the address prompt is sent |
| HandlerProperties.AnyLocationAccepted | lib/vk-handlers.js:287-293 | with a non-empty cart, whatever address is typed moves the dialogue to 'confirming_order' with the name and that address |
| HandlerProperties.EmptyCartPlacesNothing | lib/vk-handlers.js:354-358 | an empty cart creates no order and resets the dialogue |
| HandlerProperties.MissingProductWritesNothing | lib/vk-database.js:286-301 | a cart line whose product is gone makes order placement throw before anything changes |
| HandlerProperties.DispatchEffect | lib/vk-handlers.js:376-394 | without exactly one dispatch chat nothing happens; with one, it gets the order with its accept keyboard and the order's timer is armed; no table changes |
| HandlerProperties.CategoryKeyboardsByName | lib/vk-handlers.js:199-219 | with the tables valid, the catalogue and the start of an order send a grid whose buttons, row by row, are the categories in name order |
| HandlerProperties.CategoryPageByName | lib/vk-handlers.js:320-329 | with the tables valid, the first page of a category shows its first five products by name, one per row |
| HandlerProperties.PlacedOrderMatchesCart | lib/vk-database.js:286-315 | placing an order adds exactly one 'pending' order with the cart's totals, and its items are the cart's snapshot with matching sums |
| HandlerProperties.PlacedOrderKeepsTablesValid | lib/vk-handlers.js:353-373 | placing an order keeps the tables consistent |
| HandlerProperties.PlacedOrderClearsCart | lib/vk-handlers.js:362-372 | afterwards the client's cart is empty and the dialogue cleared, the client is told the order number, and a timer exists exactly when one did or there is a dispatch chat |
| HandlerProperties.TimeoutOnlyForPending | lib/vk-handlers.js:397-410 | the timeout messages the client exactly when the order exists and is pending, setting 'confirming_order_relevance' with its id; otherwise nothing changes |
| HandlerProperties.RelevanceConfirmationRepeats | lib/vk-handlers.js:304-307 | a yes to the relevance question for a pending order places nothing and asks again |
| HandlerProperties.RelevanceRefusalKeepsOrder | lib/vk-handlers.js:308-310 | any other answer to the relevance question only clears the dialogue; the order's status is unchanged |
| HandlerProperties.AcceptRejectsUnavailable | lib/vk-handlers.js:502-506 | a missing or non-pending order only gets a refusal |
| HandlerProperties.AcceptKeepsOrderPending | lib/vk-handlers.js:500-525 | accepting a pending order leaves the orders unchanged and removes the timer; a known courier is asked for a time in 'entering_delivery_time', an unknown one told they were not found |
| HandlerProperties.TwoCouriersCanAccept | lib/vk-handlers.js:500-525 | a second courier accepting the same order is asked for a time as well, and both end in the same state |
| HandlerProperties.DeliveryTimeAccepts | lib/vk-handlers.js:540-570 | every order with that id becomes 'accepted' at that time by the courier, with that estimate; other orders are unchanged; the courier's state is cleared; it throws exactly for a courier without a row, and otherwise sends two messages, the first to the client |
| HandlerProperties.ConfirmCaptionIsNotYes | lib/vk-keyboards.js:164 | the confirm button's caption is not one of the accepted yes words |
| HandlerProperties.RefusedConfirmationCancels | lib/vk-handlers.js:295-302 | in 'confirming_order', a message that neither says yes nor carries a category, product or action cancels the order |
| HandlerProperties.ConfirmButtonRefuses | lib/vk-keyboards.js:159-172 | pressing "✅ Всё верно" therefore cancels rather than confirms |
| HandlerProperties.AcceptButtonDoesNothing | lib/vk-handlers.js:192-195 | the dispatch accept button's payload has no `action`, so pressing it changes nothing |
| HandlerProperties.UnmatchedTitleIgnored | lib/vk-handlers.js:432 | a title that names no role saves nothing and sends nothing |
| HandlerProperties.RegisteredChatIsSaved | lib/vk-handlers.js:432-447 | a matching title saves the chat under its peer with that role and notifies `adminUserId`; the "all 7 registered" notice follows exactly while at least 7 rows exist |
| HandlerProperties.NonEmployeeIgnored | lib/vk-handlers.js:130-134 | a non-employee in a registered chat changes nothing |
| HandlerProperties.OnlineCommandThrows | lib/vk-handlers.js:455-461 | '!онлайн' in the activity log throws, since its sender has just been marked online |
| HandlerProperties.SeniorChatCommandsDoNothing | lib/vk-handlers.js:170-175 | the other '!' commands in the senior chat change nothing |
| HandlerProperties.ManagementChatCommandsThrow | lib/vk-handlers.js:178-183 | the other '!' commands in the management chat change nothing, and throw exactly for a management user |
| Webhook.NewMessage | app/api/vk-webhook/route.js:24-25 | a message is taken only from a 'message_new' event |
| Webhook.ResponseTo | app/api/vk-webhook/route.js:6-53 | every response has status 200 |
| Webhook.Post | app/api/vk-webhook/route.js:6-53 | answers as stated, handling at most one message |
| Webhook.ConfirmationChangesNothing | app/api/vk-webhook/route.js:15-21 | the confirmation request gets the code and changes nothing |
| Webhook.NewMessageHandledOnce | app/api/vk-webhook/route.js:24-44 | a new message is handled once, and 'ok' is returned even when the handler threw |
| Webhook.OtherEventsIgnored | app/api/vk-webhook/route.js:35-52 | any other event, and a body that does not parse, gets 'ok' and changes nothing |

## Left out

- Message texts, emoji, dates and locale formatting. A message is its recipient, its kind and
  the ids and names it carries. `formatOrderForDispatch`, `formatOrderStatus`, the
  daily/weekly reports, `formatOnlineUsers` and `formatUserStats` are texts, so only the kind
  of the message is modelled.
- `handleStatsCommand` and `handleChatsListCommand` are modelled only by the kind of message
  they send. Reading the statistics they print is not part of this model.
- JSON parsing and printing. Payloads are decoded records, so a payload that does not parse
  is not modelled.
- Failures of the VK API and of Supabase calls, other than the throws the model names.
- `console.log`.
- Random ids.
- `getUserInfo`, `editMessage` and the wall and pin calls of `lib/vk-api.js`. `kickUser` is
  modelled only by its chat id computation.
- The Supabase functions the core does not call: `createEmployee`, `getAllEmployees`, the
  statistics queries, `createCategory`, `deleteCategory`, `createProduct`, `deleteProduct`,
  the daily and weekly order queries and `saveFinancialReport`.
- The real-time side of `setTimeout` and `clearTimeout`, the 15-minute delay and the race
  between the timer and an acceptance.
  - Events run one at a time, and a timer firing is the explicit event `Bot.FireTimer`.
  - A fired timer leaves its entry in `orderTimers`, as in the source.
- Helpers.CalculateFinances: floating point is not modelled. `Math.floor(x * 0.8)`,
  `Math.floor(x * 0.2)` and `Math.floor(share * (pct / 100))` are written as exact integer
  floors. The float product can fall just below an integer when the factor has no exact
  binary form: with a share of 100 and 29 percent, JavaScript computes 100 * 0.29 as
  28.999999999999996 and floors it to 28, where the model gives 29.
- Database.NameLe: `.order('name')` sorts by the database's collation, and the model takes
  code-point order. Under a locale collation, such as a Russian one, names that mix case or
  scripts can sort otherwise. So the name order that `Store.Valid`,
  HandlerProperties.CategoryKeyboardsByName, HandlerProperties.CategoryPageByName,
  Admin.CategoryListingByName and Admin.ProductListingByName promise is code-point order.
  Rows with equal names keep their stored order, which the database leaves unspecified.
- JsText.LowerChar: only A–Z, А–Я and Ѐ–Џ are lowered. `toLowerCase` also lowers the
  Latin-1 and Latin Extended capitals, Greek, Armenian and other scripts, and maps the Kelvin
  sign to "k". All of those are kept unchanged here.
- JsText.ToLower: the result keeps the input's length. `toLowerCase` turns "İ" (U+0130) into
  two code units and lowers a final capital sigma by its context, so for such text the model
  and JavaScript differ.
- Keyboards.ProductButtonShape: the 40-character cut counts characters, while
  `label.substring(0, 40)` counts UTF-16 code units. A label with characters outside the
  Basic Multilingual Plane, such as emoji, is cut at a different place in JavaScript and can
  be split inside a surrogate pair.
- Helpers.GetRoleName, Helpers.GetChatTypeName and Helpers.ChatsForRoleNested look roles up
  as plain strings. In JavaScript, `roleNames[role]` and `chatAccess[role]` also find the
  keys inherited from `Object.prototype`. So a role such as "constructor" or "toString"
  yields a function instead of "Неизвестно", "Неизвестный тип" or the empty chat list.
- Orders sorted by `created_at`. The table keeps orders in creation order and "newest first"
  reads it backwards.
- String length. The validators compare lengths in characters, where JavaScript counts UTF-16
  code units.
- `config.vk.adminUserId` is not defined in `lib/vk-config.js`, so the notices
  `tryRegisterChat` sends carry the peer `None`. In JavaScript that peer reaches the request
  as the text "undefined"; the VK API will likely refuse it, `callAPI` then throws, and the
  `catch` of `tryRegisterChat` skips the count and the second notice. The model records both
  sends: it leaves that failure out as one of the failures of the VK API listed above.
- Helpers.FormatCart models the total on cart lines carrying their own price and quantity, as
  `formatCart` reads them. The cart rows `showCart` passes keep the price under `product`,
  which would make the JavaScript total NaN. That total is not part of this model;
  `Handlers.ShowCartStep` records only the kind of message.
- The re-prompts after `validateUsername` and `validateLocation` are never sent, because the
  validators return an object, which is always truthy. The model follows the code, see
  HandlerProperties.AnyUsernameAccepted.

The model keeps these behaviours of the code as written:
- The keyboards write `categoryId`, `productId` and `orderId`, while the handlers read
  `category_id`, `product_id` and `order_id`. So the buttons' ids never reach the handlers,
  and the accept button does nothing.
- The "✅ Всё верно" button cancels the order instead of confirming it.
- 'selecting_product' is an unknown state.
- Two couriers can accept the same order.
- '!онлайн' throws.
- The admin handlers are given the text string instead of the message.
- `removeFromCart` is given the user id where it expects a cart-row id.
