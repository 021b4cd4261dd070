/**
 * The keyboards of the mechanics' bot: the main menu, the list of service
 * orders and the actions on one order. Each is built by a method that grows
 * an `InlineKeyboardBuilder`, proved to give the layout that the function
 * `MainMenu`, `OrdersList` or `OrderActions` describes.
 */
module ServiceKeyboards {
  import opened Wrappers
  import opened Text
  import opened Orders
  import opened Keyboard

  const ShowServiceOrders := "show_service_orders"
  const Help := "help"
  const ServiceBackToMenu := "service_back_to_menu"
  const OrderPrefix := "service_order_"
  const AcceptPrefix := "service_accept_"
  const RejectPrefix := "service_reject_"

  const BackButton := Button("🔙 Назад в меню", ServiceBackToMenu)

  /** Two single-button rows: show the orders, then help. */
  function MainMenu(): (m: Markup)
    ensures |m| == 2 && |m[0]| == 1 && |m[1]| == 1
    ensures m[0][0].callbackData == ShowServiceOrders && m[1][0].callbackData == Help
  {
    [[Button("📋 Показать все заказы СТО", ShowServiceOrders)],
     [Button("ℹ️ Помощь", Help)]]
  }

  method GetServiceMainMenu() returns (m: Markup)
    ensures m == MainMenu()
  {
    var builder := new KeyboardBuilder();
    builder.AddRow([Button("📋 Показать все заказы СТО", ShowServiceOrders)]);
    builder.AddRow([Button("ℹ️ Помощь", Help)]);
    m := builder.AsMarkup();
  }

  /** The token of an order's row: the prefix and the order's number. */
  function OrderToken(o: Order): string {
    OrderPrefix + NumberText(o)
  }

  /** The label of an order's row, with the defaults for the missing fields. */
  function OrderButtonText(o: Order): (r: string)
    ensures StartsWith(r, "№" + NumberText(o) + " - ")
    ensures Contains(r, " - " + ClientName(o) + " - ")
    ensures Contains(r, " - " + CarText(o) + " - ")
    ensures Contains(r, " - " + AmountText(o) + " руб. ")
    ensures Contains(r, "(" + StatusText(o) + ")")
  {
    var n, client, car := NumberText(o), ClientName(o), CarText(o);
    var amount, status := AmountText(o), StatusText(o);
    var parts := ["№", n, " - ", client, " - ", car, " - ", amount, " руб. ", "(", status, ")"];
    ConcatRuns(parts, 0, 3);
    assert parts[..3] == ["№", n, " - "];
    ConcatThree("№", n, " - ");
    ConcatRuns(parts, 2, 5);
    assert parts[2..5] == [" - ", client, " - "];
    ConcatThree(" - ", client, " - ");
    ConcatRuns(parts, 4, 7);
    assert parts[4..7] == [" - ", car, " - "];
    ConcatThree(" - ", car, " - ");
    ConcatRuns(parts, 6, 9);
    assert parts[6..9] == [" - ", amount, " руб. "];
    ConcatThree(" - ", amount, " руб. ");
    ConcatRuns(parts, 9, 12);
    assert parts[9..12] == ["(", status, ")"];
    ConcatThree("(", status, ")");
    Concat(parts)
  }

  function OrderButton(o: Order): Button {
    Button(OrderButtonText(o), OrderToken(o))
  }

  /** The list keyboard: a row per order, then the way back to the menu. */
  function OrdersList(orders: seq<Order>): Markup {
    OrderRows(orders, OrderButton) + [[BackButton]]
  }

  /**
   * The list keyboard has one row more than there are orders; row `i` is the
   * single button of order `i`, whose token is the row prefix and its number;
   * the last row is the single back button.
   */
  lemma OrdersListShape(orders: seq<Order>)
    ensures |OrdersList(orders)| == |orders| + 1
    ensures forall i :: 0 <= i < |orders| ==>
      OrdersList(orders)[i] == [OrderButton(orders[i])] &&
      OrdersList(orders)[i][0].callbackData == OrderPrefix + NumberText(orders[i])
    ensures OrdersList(orders)[|orders|] == [BackButton]
  {
    ListShape(orders, OrderButton, BackButton);
  }

  /** An order with only a number gets the default client, car, amount and status in its label. */
  lemma OrderButtonDefaults(n: string)
    ensures OrderButton(Order(Some(n), None, None, None, None)) ==
      Button(Concat(["№", n, " - ", "Клиент", " - ", "Автомобиль", " - ", "0", " руб. ", "(", "", ")"]), OrderPrefix + n)
  {
  }

  method GetServiceOrdersListKeyboard(orders: seq<Order>) returns (m: Markup)
    ensures m == OrdersList(orders)
  {
    var builder := new KeyboardBuilder();
    for i := 0 to |orders|
      invariant builder.rows == OrderRows(orders[..i], OrderButton)
    {
      var order := orders[i];
      var orderNumber := NumberText(order);
      var clientName := ClientName(order);
      var car := CarText(order);
      var amount := AmountText(order);
      var status := StatusText(order);
      var buttonText := Concat(["№", orderNumber, " - ", clientName, " - ", car, " - ", amount, " руб. ", "(", status, ")"]);
      builder.AddRow([Button(buttonText, OrderPrefix + orderNumber)]);
      OrderRowsSnoc(orders[..i], order, OrderButton);
      assert orders[..i + 1] == orders[..i] + [order];
    }
    builder.AddRow([BackButton]);
    assert orders[..|orders|] == orders;
    m := builder.AsMarkup();
  }

  /**
   * The actions on one order: accept and reject it, then back to the list
   * and back to the menu.
   */
  function OrderActions(orderNumber: string): (m: Markup)
    ensures |m| == 2 && |m[0]| == 2 && |m[1]| == 2
    ensures m[0][0].callbackData == AcceptPrefix + orderNumber
    ensures m[0][1].callbackData == RejectPrefix + orderNumber
    ensures m[1][0].callbackData == ShowServiceOrders && m[1][1].callbackData == ServiceBackToMenu
  {
    [[Button("✅ Принять заказ", AcceptPrefix + orderNumber),
      Button("❌ Отклонить заказ", RejectPrefix + orderNumber)],
     [Button("📋 К списку заказов", ShowServiceOrders),
      Button("🔙 В меню", ServiceBackToMenu)]]
  }

  method GetServiceOrderActionsKeyboard(orderNumber: string) returns (m: Markup)
    ensures m == OrderActions(orderNumber)
  {
    var builder := new KeyboardBuilder();
    builder.AddRow([Button("✅ Принять заказ", AcceptPrefix + orderNumber),
                    Button("❌ Отклонить заказ", RejectPrefix + orderNumber)]);
    builder.AddRow([Button("📋 К списку заказов", ShowServiceOrders),
                    Button("🔙 В меню", ServiceBackToMenu)]);
    m := builder.AsMarkup();
  }

  /** The main menu carries exactly the two menu tokens. */
  lemma MainMenuTokens()
    ensures Tokens(MainMenu()) == {ShowServiceOrders, Help}
  {
    var m: Markup := MainMenu();
    assert m[0][0].callbackData == ShowServiceOrders && m[1][0].callbackData == Help;
  }

  /** The actions keyboard carries the order's accept and reject tokens and the two fixed ones. */
  lemma OrderActionsTokens(orderNumber: string)
    ensures Tokens(OrderActions(orderNumber)) ==
      {AcceptPrefix + orderNumber, RejectPrefix + orderNumber, ShowServiceOrders, ServiceBackToMenu}
  {
    var a: Markup := OrderActions(orderNumber);
    assert a[0][0].callbackData == AcceptPrefix + orderNumber;
    assert a[0][1].callbackData == RejectPrefix + orderNumber;
    assert a[1][0].callbackData == ShowServiceOrders && a[1][1].callbackData == ServiceBackToMenu;
  }

  /** The list keyboard carries the back token and otherwise only order-row tokens. */
  lemma OrdersListTokens(orders: seq<Order>)
    ensures ServiceBackToMenu in Tokens(OrdersList(orders))
    ensures forall t :: t in Tokens(OrdersList(orders)) ==> t == ServiceBackToMenu || StartsWith(t, OrderPrefix)
  {
    var l: Markup := OrdersList(orders);
    var rows := OrderRows(orders, OrderButton);
    if orders != [] {
      OrderRowsAt(orders, OrderButton, 0);
    }
    assert |rows| == |orders| && l == rows + [[BackButton]];
    assert l[|orders|][0].callbackData == ServiceBackToMenu;
    forall t | t in Tokens(l) ensures t == ServiceBackToMenu || StartsWith(t, OrderPrefix) {
      var i, j :| 0 <= i < |l| && 0 <= j < |l[i]| && l[i][j].callbackData == t;
      if i < |orders| {
        OrderRowsAt(orders, OrderButton, i);
        assert l[i] == rows[i] == [OrderButton(orders[i])];
        assert t == OrderPrefix + NumberText(orders[i]);
        assert t[..|OrderPrefix|] == OrderPrefix;
      }
    }
  }
}
