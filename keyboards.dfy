/** The inline keyboards the bot attaches to its messages. A button's payload is kept as
    the decoded JSON object rather than its text. */
module Keyboards {
  import opened Options
  import opened Tables
  import JsText

  datatype Color = Primary | Positive | Secondary | Negative

  /** A decoded button payload, one field per JSON key that occurs in the bot. The
      keyboards write `command`, `categoryId`, `productId`, `orderId`, `page`, `index`
      and `answer`; the message handlers read `command`, `category_id`, `product_id`,
      `action` and `order_id`. `cartActionsKeyboard` alone writes `action`. */
  datatype Payload = Payload(
    command: Option<string>,
    categoryId: Option<int>,
    productId: Option<int>,
    orderId: Option<int>,
    page: Option<int>,
    index: Option<int>,
    answer: Option<string>,
    action: Option<string>,
    category_id: Option<int>,
    product_id: Option<int>,
    order_id: Option<int>)

  /** `{}` */
  const NoKeys := Payload(None, None, None, None, None, None, None, None, None, None, None)

  /** `{"command": c}` */
  function Cmd(c: string): Payload {
    NoKeys.(command := Some(c))
  }

  /** `{"command": c, "orderId": id}` */
  function OrderCmd(c: string, orderId: int): Payload {
    NoKeys.(command := Some(c), orderId := Some(orderId))
  }

  datatype Button = Button(caption: string, payload: Payload, color: Color)

  datatype Keyboard = Keyboard(inline: bool, buttons: seq<seq<Button>>)

  /** All buttons of a keyboard, row by row. */
  function Flatten(rows: seq<seq<Button>>): seq<Button> {
    if rows == [] then [] else rows[0] + Flatten(rows[1..])
  }

  // ---------------------------------------------------------------------------
  // Fixed keyboards
  // ---------------------------------------------------------------------------

  function MainMenuKeyboard(): Keyboard {
    Keyboard(true, [
      [Button("📋 Каталог", Cmd("catalog"), Primary), Button("🛒 Заказать", Cmd("order"), Positive)],
      [Button("💼 Трудоустройство", Cmd("employment"), Secondary), Button("❓ Частые вопросы", Cmd("faq"), Secondary)],
      [Button("📦 Мои заказы", Cmd("my_orders"), Secondary)]])
  }

  /** The single "back" button; the source's default command is `main_menu`. */
  function BackButton(command: string): Keyboard {
    Keyboard(true, [[Button("◀️ Назад", Cmd(command), Negative)]])
  }

  function CartKeyboard(): Keyboard {
    Keyboard(true, [
      [Button("➕ Добавить товар", Cmd("order"), Positive)],
      [Button("🗑 Удалить товар", Cmd("remove_item"), Secondary), Button("🧹 Очистить корзину", Cmd("clear_cart"), Negative)],
      [Button("✅ Оформить заказ", Cmd("checkout"), Positive)],
      [Button("◀️ Главное меню", Cmd("main_menu"), Negative)]])
  }

  function ConfirmOrderKeyboard(): Keyboard {
    Keyboard(true, [
      [Button("✅ Всё верно", Cmd("confirm_order"), Positive), Button("✏️ Изменить", Cmd("cart"), Secondary)],
      [Button("❌ Отменить", Cmd("main_menu"), Negative)]])
  }

  /** The dispatch-chat button; its only payload key naming the order is `orderId`. */
  function AcceptOrderKeyboard(orderId: int): (kb: Keyboard)
    ensures forall r, b :: 0 <= r < |kb.buttons| && b in kb.buttons[r] ==>
              && b.payload.orderId == Some(orderId) && b.payload.order_id == None
              && b.payload.command == Some("accept_order") && b.payload.action == None
  {
    Keyboard(true, [[Button("✅ Принять заказ", OrderCmd("accept_order", orderId), Positive)]])
  }

  /** The courier's three progress buttons, each naming the order. */
  function CourierOrderKeyboard(orderId: int): (kb: Keyboard)
    ensures kb.inline
    ensures |kb.buttons| == 3 && forall r :: 0 <= r < 3 ==> |kb.buttons[r]| == 1
    ensures forall r, b :: 0 <= r < |kb.buttons| && b in kb.buttons[r] ==>
              && b.payload.orderId == Some(orderId) && b.payload.order_id == None && b.payload.action == None
    ensures kb.buttons[0][0].payload.command == Some("order_ready")
    ensures kb.buttons[1][0].payload.command == Some("arrived")
    ensures kb.buttons[2][0].payload.command == Some("complete_order")
  {
    Keyboard(true, [
      [Button("✅ Готов, еду к клиенту", OrderCmd("order_ready", orderId), Positive)],
      [Button("📍 На месте", OrderCmd("arrived", orderId), Primary)],
      [Button("✔️ Заказ завершён", OrderCmd("complete_order", orderId), Positive)]])
  }

  function ClientOrderStatusKeyboard(orderId: int): Keyboard {
    Keyboard(true, [
      [Button("📊 Статус заказа", OrderCmd("order_status", orderId), Primary)],
      [Button("💬 Связаться с курьером", OrderCmd("contact_courier", orderId), Secondary)],
      [Button("◀️ Главное меню", Cmd("main_menu"), Negative)]])
  }

  function ConfirmContactCourierKeyboard(orderId: int): Keyboard {
    Keyboard(true, [
      [Button("✅ Да, уверен", OrderCmd("confirm_contact", orderId), Positive),
       Button("❌ Отмена", OrderCmd("order_status", orderId), Negative)]])
  }

  /** The keyboard shown after adding to the cart; the only one writing `action`. */
  function CartActionsKeyboard(): Keyboard {
    Keyboard(true, [
      [Button("➕ Добавить товар", Cmd("order"), Primary), Button("🗑️ Очистить", NoKeys.(action := Some("clear_cart")), Negative)],
      [Button("✅ Оформить заказ", NoKeys.(action := Some("checkout")), Positive)],
      [Button("🏠 Главное меню", Cmd("start"), Secondary)]])
  }

  function YesNoKeyboard(): Keyboard {
    Keyboard(true, [
      [Button("✅ Да", NoKeys.(answer := Some("yes")), Positive), Button("❌ Нет", NoKeys.(answer := Some("no")), Negative)]])
  }

  // ---------------------------------------------------------------------------
  // Categories: rows of two
  // ---------------------------------------------------------------------------

  function CategoryButton(c: Category): Button {
    Button(c.name, NoKeys.(command := Some("category"), categoryId := Some(c.id)), Primary)
  }

  /** Row `r` of the category grid: categories 2r and 2r+1, or 2r alone when it is last. */
  function CategoryRow(cats: seq<Category>, r: nat): seq<Button>
    requires 2 * r < |cats|
  {
    if 2 * r + 1 < |cats| then [CategoryButton(cats[2 * r]), CategoryButton(cats[2 * r + 1])]
    else [CategoryButton(cats[2 * r])]
  }

  /** ceil(n/2) rows of category buttons. */
  function CategoryGrid(cats: seq<Category>): seq<seq<Button>> {
    seq((|cats| + 1) / 2, r requires 0 <= r < (|cats| + 1) / 2 => CategoryRow(cats, r))
  }

  /** The keyboard `categoriesKeyboard` builds: the grid of rows of two, then the back
      row. */
  function CategoriesLayout(categories: seq<Category>, backCommand: string): Keyboard {
    Keyboard(true, CategoryGrid(categories) + [BackButton(backCommand).buttons[0]])
  }

  /** `categoriesKeyboard(categories, backCommand)`: the loop pushes a button per
      category and closes a row after every second one and after the last. */
  method CategoriesKeyboard(categories: seq<Category>, backCommand: string) returns (kb: Keyboard)
    ensures kb == Keyboard(true, CategoryGrid(categories) + [[Button("◀️ Назад", Cmd(backCommand), Negative)]])
    ensures kb == CategoriesLayout(categories, backCommand)
  {
    var n := |categories|;
    var buttons: seq<seq<Button>> := [];
    var row: seq<Button> := [];
    var i := 0;
    while i < n
      invariant 0 <= i <= n
      invariant row == if i % 2 == 1 && i < n then [CategoryButton(categories[i - 1])] else []
      invariant |buttons| == if i % 2 == 1 && i < n then i / 2 else (i + 1) / 2
      invariant forall r :: 0 <= r < |buttons| ==> 2 * r < n && buttons[r] == CategoryRow(categories, r)
    {
      row := row + [CategoryButton(categories[i])];
      if (i + 1) % 2 == 0 || i == n - 1 {
        buttons := buttons + [row];
        row := [];
      }
      i := i + 1;
    }
    assert buttons == CategoryGrid(categories);
    buttons := buttons + [[Button("◀️ Назад", Cmd(backCommand), Negative)]];
    kb := Keyboard(true, buttons);
  }

  /** The grid holds the categories in order: its buttons, read row by row, are one per
      category; every row holds two buttons except possibly the last, which holds one. */
  lemma {:induction false} CategoryGridInOrder(cats: seq<Category>)
    ensures |CategoryGrid(cats)| == (|cats| + 1) / 2
    ensures Flatten(CategoryGrid(cats)) == seq(|cats|, i requires 0 <= i < |cats| => CategoryButton(cats[i]))
    ensures forall r :: 0 <= r < |CategoryGrid(cats)| - 1 ==> |CategoryGrid(cats)[r]| == 2
    ensures |cats| > 0 ==> |CategoryGrid(cats)[|CategoryGrid(cats)| - 1]| == 2 - |cats| % 2
  {
    var grid := CategoryGrid(cats);
    if |cats| <= 1 {
      if |cats| == 1 {
        assert grid == [[CategoryButton(cats[0])]];
        assert Flatten(grid) == [CategoryButton(cats[0])] + Flatten([]);
      }
    } else {
      var rest := cats[2..];
      CategoryGridInOrder(rest);
      CategoryGridTail(cats);
      CategoryButtonsTail(cats);
      assert Flatten(grid) == grid[0] + Flatten(grid[1..]);
      assert |rest| % 2 == |cats| % 2;
    }
  }

  /** The grid of two or more categories is their pair followed by the grid of the rest. */
  lemma CategoryGridTail(cats: seq<Category>)
    requires |cats| >= 2
    ensures CategoryGrid(cats)[0] == [CategoryButton(cats[0]), CategoryButton(cats[1])]
    ensures CategoryGrid(cats)[1..] == CategoryGrid(cats[2..])
  {
    var grid := CategoryGrid(cats);
    var rest := cats[2..];
    var restGrid := CategoryGrid(rest);
    assert |grid| == |restGrid| + 1;
    forall r | 0 <= r < |restGrid| ensures grid[1..][r] == restGrid[r] {
      assert rest[2 * r] == cats[2 * r + 2];
      assert 2 * r + 1 < |rest| ==> rest[2 * r + 1] == cats[2 * r + 3];
    }
  }

  lemma CategoryButtonsTail(cats: seq<Category>)
    requires |cats| >= 2
    ensures seq(|cats|, i requires 0 <= i < |cats| => CategoryButton(cats[i]))
            == [CategoryButton(cats[0]), CategoryButton(cats[1])]
               + seq(|cats| - 2, i requires 0 <= i < |cats| - 2 => CategoryButton(cats[2..][i]))
  {
  }

  // ---------------------------------------------------------------------------
  // Products: one per row, paginated
  // ---------------------------------------------------------------------------

  /** The full product label before truncation. */
  function ProductLabel(p: Product): string {
    if p.nutrition != "" then p.name + " | " + p.nutrition + " - " + JsText.IntToString(p.price) + "р."
    else p.name + " - " + JsText.IntToString(p.price) + "р."
  }

  /** `s.substring(0, n)` */
  function Substring(s: string, n: nat): string {
    if |s| < n then s else s[..n]
  }

  function ProductButton(p: Product): Button {
    Button(Substring(ProductLabel(p), 40), NoKeys.(command := Some("add_to_cart"), productId := Some(p.id)), Positive)
  }

  function PageEnd(n: nat, page: nat, perPage: nat): nat {
    if page * perPage + perPage < n then page * perPage + perPage else n
  }

  /** The pagination row: "previous" when not on the first page, "next" when products
      remain after this page. */
  function PaginationRow(n: nat, page: nat, categoryId: int, perPage: nat): seq<Button> {
    (if page > 0 then [Button("⬅️", NoKeys.(command := Some("page"), categoryId := Some(categoryId), page := Some(page - 1)), Secondary)] else [])
    + (if PageEnd(n, page, perPage) < n then [Button("➡️", NoKeys.(command := Some("page"), categoryId := Some(categoryId), page := Some(page + 1)), Secondary)] else [])
  }

  const ToCategoriesRow := [Button("◀️ К категориям", Cmd("order"), Negative)]

  /** The products a page shows: products[start..end) with start = page * perPage and
      end = min(start + perPage, n), none when start is past the end. */
  function PageProducts(products: seq<Product>, page: nat, perPage: nat): seq<Product> {
    if page * perPage < PageEnd(|products|, page, perPage) then products[page * perPage..PageEnd(|products|, page, perPage)] else []
  }

  /** One row per product, in order. */
  function ProductRows(ps: seq<Product>): seq<seq<Button>> {
    seq(|ps|, k requires 0 <= k < |ps| => ProductRow(ps[k]))
  }

  function ProductRow(p: Product): seq<Button> {
    [ProductButton(p)]
  }

  lemma ProductRowsSnoc(ps: seq<Product>, p: Product)
    ensures ProductRows(ps + [p]) == ProductRows(ps) + [ProductRow(p)]
  {
    assert forall k :: 0 <= k < |ps| ==> (ps + [p])[k] == ps[k];
  }

  function ProductsLayout(products: seq<Product>, page: nat, categoryId: int, perPage: nat): Keyboard {
    PageLayout(ProductRows(PageProducts(products, page, perPage)), PaginationRow(|products|, page, categoryId, perPage))
  }

  /** The product rows, then the pagination row when it has a button, then the row back
      to the categories. */
  function PageLayout(rows: seq<seq<Button>>, pagination: seq<Button>): Keyboard {
    Keyboard(true, rows + (if |pagination| > 0 then [pagination] else []) + [ToCategoriesRow])
  }

  lemma PageLayoutAt(rows: seq<seq<Button>>, pagination: seq<Button>)
    ensures var kb := PageLayout(rows, pagination);
            && |kb.buttons| == |rows| + (if |pagination| > 0 then 1 else 0) + 1
            && (forall k :: 0 <= k < |rows| ==> kb.buttons[k] == rows[k])
            && (|pagination| > 0 ==> kb.buttons[|rows|] == pagination)
            && kb.buttons[|kb.buttons| - 1] == ToCategoriesRow
  {
    var extra := if |pagination| > 0 then [pagination] else [];
    assert PageLayout(rows, pagination).buttons == rows + extra + [ToCategoriesRow];
    if |pagination| > 0 {
      assert (rows + extra)[|rows|] == pagination;
    }
  }

  /** The loop of `productsKeyboard` that puts products[start..end) one per row. */
  method ProductRowsLoop(products: seq<Product>, start: nat, end: nat) returns (rows: seq<seq<Button>>)
    requires end <= |products|
    ensures rows == ProductRows(if start < end then products[start..end] else [])
  {
    rows := [];
    if start < end {
      var i := start;
      while i < end
        invariant start <= i <= end
        invariant rows == ProductRows(products[start..i])
      {
        assert products[start..i + 1] == products[start..i] + [products[i]];
        ProductRowsSnoc(products[start..i], products[i]);
        rows := rows + [ProductRow(products[i])];
        i := i + 1;
      }
    }
  }

  /** `productsKeyboard(products, page, categoryId, itemsPerPage)`. */
  method ProductsKeyboard(products: seq<Product>, page: nat, categoryId: int, itemsPerPage: nat) returns (kb: Keyboard)
    ensures kb == ProductsLayout(products, page, categoryId, itemsPerPage)
  {
    var start := page * itemsPerPage;
    var end := if start + itemsPerPage < |products| then start + itemsPerPage else |products|;
    var buttons := ProductRowsLoop(products, start, end);
    var paginationRow: seq<Button> := [];
    if page > 0 {
      paginationRow := paginationRow + [Button("⬅️", NoKeys.(command := Some("page"), categoryId := Some(categoryId), page := Some(page - 1)), Secondary)];
    }
    if end < |products| {
      paginationRow := paginationRow + [Button("➡️", NoKeys.(command := Some("page"), categoryId := Some(categoryId), page := Some(page + 1)), Secondary)];
    }
    assert paginationRow == PaginationRow(|products|, page, categoryId, itemsPerPage);
    if |paginationRow| > 0 {
      buttons := buttons + [paginationRow];
    }
    buttons := buttons + [ToCategoriesRow];
    kb := Keyboard(true, buttons);
  }

  /** The number of products a page shows: those in [start, end) with
      end = min(start + perPage, n). */
  function Shown(n: nat, page: nat, perPage: nat): nat {
    if page * perPage < PageEnd(n, page, perPage) then PageEnd(n, page, perPage) - page * perPage else 0
  }

  /** Whether a page has a pagination row: there is a previous page (page > 0) or a
      next one (products remain after this page). */
  predicate HasPagination(n: nat, page: nat, perPage: nat) {
    page > 0 || PageEnd(n, page, perPage) < n
  }

  /** The products a page shows are exactly products[start..end), in order. */
  lemma PageProductsAt(products: seq<Product>, page: nat, perPage: nat)
    ensures var ps := PageProducts(products, page, perPage);
            && |ps| == Shown(|products|, page, perPage)
            && forall k :: 0 <= k < |ps| ==> ps[k] == products[page * perPage + k]
  {
  }

  /** What a page shows first: its products, one per row in order (see
      ProductButtonShape for each row's button); the keyboard has one row more for
      pagination when there is one, and one row back to the categories. */
  lemma ProductsLayoutRows(products: seq<Product>, page: nat, categoryId: int, perPage: nat)
    ensures var kb := ProductsLayout(products, page, categoryId, perPage);
            var ps := PageProducts(products, page, perPage);
            && |kb.buttons| == |ps| + (if HasPagination(|products|, page, perPage) then 1 else 0) + 1
            && (forall k :: 0 <= k < |ps| ==> kb.buttons[k] == ProductRow(ps[k]))
  {
    var rows := ProductRows(PageProducts(products, page, perPage));
    var pagination := PaginationRow(|products|, page, categoryId, perPage);
    PaginationShape(|products|, page, categoryId, perPage);
    PageLayoutAt(rows, pagination);
  }

  /** What a page shows after the products: the pagination row when there is one, whose
      first button goes to page - 1 iff page > 0 and whose last goes to page + 1 iff
      products remain; and last the row back to the categories. */
  lemma ProductsLayoutNavigation(products: seq<Product>, page: nat, categoryId: int, perPage: nat)
    ensures var kb := ProductsLayout(products, page, categoryId, perPage);
            var shown := |PageProducts(products, page, perPage)|;
            && |kb.buttons| > shown
            && (HasPagination(|products|, page, perPage) ==>
                  var row := kb.buttons[shown];
                  && 1 <= |row| <= 2
                  && (row[0].payload.page == Some(page - 1) <==> page > 0)
                  && (row[|row| - 1].payload.page == Some(page + 1) <==> PageEnd(|products|, page, perPage) < |products|))
            && kb.buttons[|kb.buttons| - 1] == ToCategoriesRow
  {
    var rows := ProductRows(PageProducts(products, page, perPage));
    var pagination := PaginationRow(|products|, page, categoryId, perPage);
    PaginationShape(|products|, page, categoryId, perPage);
    PageLayoutAt(rows, pagination);
  }

  lemma ProductButtonShape(p: Product)
    ensures ProductRow(p) == [ProductButton(p)]
    ensures ProductButton(p).caption <= ProductLabel(p)
    ensures |ProductButton(p).caption| <= 40
    ensures |ProductButton(p).caption| == if |ProductLabel(p)| < 40 then |ProductLabel(p)| else 40
    ensures ProductButton(p).payload.productId == Some(p.id)
    ensures ProductButton(p).payload.command == Some("add_to_cart")
  {
  }

  lemma PaginationShape(n: nat, page: nat, categoryId: int, perPage: nat)
    ensures var row := PaginationRow(n, page, categoryId, perPage);
            && (|row| > 0 <==> HasPagination(n, page, perPage))
            && |row| <= 2
            && (|row| > 0 ==>
                  && (row[0].payload.page == Some(page - 1) <==> page > 0)
                  && (row[|row| - 1].payload.page == Some(page + 1) <==> PageEnd(n, page, perPage) < n))
  {
  }

  // ---------------------------------------------------------------------------
  // Removing an item from the cart
  // ---------------------------------------------------------------------------

  /** `removeItemKeyboard(cart)`: one button per cart line carrying its position, then
      a back button. */
  function RemoveItemKeyboard(cart: seq<CartLine>): (kb: Keyboard)
    ensures kb.inline
    ensures |kb.buttons| == |cart| + 1
    ensures forall i :: 0 <= i < |cart| ==>
              |kb.buttons[i]| == 1 && kb.buttons[i][0].payload.index == Some(i)
              && kb.buttons[i][0].caption == "❌ " + cart[i].name
    ensures forall i :: 0 <= i < |cart| ==>
              kb.buttons[i][0].payload == NoKeys.(command := Some("confirm_remove"), index := Some(i))
              && kb.buttons[i][0].color == Negative
    ensures kb.buttons[|cart|] == [Button("◀️ Назад", Cmd("cart"), Secondary)]
  {
    var rows := seq(|cart|, i requires 0 <= i < |cart| =>
      [Button("❌ " + cart[i].name, NoKeys.(command := Some("confirm_remove"), index := Some(i)), Negative)]);
    Keyboard(true, rows + [[Button("◀️ Назад", Cmd("cart"), Secondary)]])
  }
}
