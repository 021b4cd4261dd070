/**
 * The keyboards of the staff bot: the same three keyboards as the mechanics'
 * bot under the unprefixed tokens, and an order row without the car.
 */
module StaffKeyboards {
  import opened Wrappers
  import opened Text
  import opened Orders
  import opened Keyboard

  const ShowOrders := "show_orders"
  const Help := "help"
  const BackToMenu := "back_to_menu"
  const OrderPrefix := "order_"
  const AcceptPrefix := "accept_"
  const RejectPrefix := "reject_"

  const BackButton := Button("🔙 Назад в меню", BackToMenu)

  /** Two single-button rows: show the orders, then help. */
  function MainMenu(): (m: Markup)
    ensures |m| == 2 && |m[0]| == 1 && |m[1]| == 1
    ensures m[0][0].callbackData == ShowOrders && m[1][0].callbackData == Help
  {
    [[Button("📋 Показать все заказы", ShowOrders)],
     [Button("ℹ️ Помощь", Help)]]
  }

  method GetStaffMainMenu() returns (m: Markup)
    ensures m == MainMenu()
  {
    var builder := new KeyboardBuilder();
    builder.AddRow([Button("📋 Показать все заказы", ShowOrders)]);
    builder.AddRow([Button("ℹ️ Помощь", Help)]);
    m := builder.AsMarkup();
  }

  function OrderToken(o: Order): string {
    OrderPrefix + NumberText(o)
  }

  /** The label of an order's row: number, client, amount and status; no car. */
  function OrderButtonText(o: Order): (r: string)
    ensures StartsWith(r, "№" + NumberText(o) + " - ")
    ensures Contains(r, " - " + ClientName(o) + " - ")
    ensures Contains(r, " - " + AmountText(o) + " руб. ")
    ensures Contains(r, "(" + StatusText(o) + ")")
  {
    var n, client, amount, status := NumberText(o), ClientName(o), AmountText(o), StatusText(o);
    var parts := ["№", n, " - ", client, " - ", amount, " руб. ", "(", status, ")"];
    ConcatRuns(parts, 0, 3);
    assert parts[..3] == ["№", n, " - "];
    ConcatThree("№", n, " - ");
    ConcatRuns(parts, 2, 5);
    assert parts[2..5] == [" - ", client, " - "];
    ConcatThree(" - ", client, " - ");
    ConcatRuns(parts, 4, 7);
    assert parts[4..7] == [" - ", amount, " руб. "];
    ConcatThree(" - ", amount, " руб. ");
    ConcatRuns(parts, 7, 10);
    assert parts[7..10] == ["(", status, ")"];
    ConcatThree("(", status, ")");
    Concat(parts)
  }

  function OrderButton(o: Order): Button {
    Button(OrderButtonText(o), OrderToken(o))
  }

  /** The list keyboard: a row per order, then the way back to the menu. */
  function OrdersList(orders: seq<Order>): Markup {
    OrderRows(orders, OrderButton) + [[BackButton]]
  }

  /**
   * The list keyboard has one row more than there are orders; row `i` is the
   * single button of order `i`, whose token is `order_` and its number; the
   * last row is the single back button.
   */
  lemma OrdersListShape(orders: seq<Order>)
    ensures |OrdersList(orders)| == |orders| + 1
    ensures forall i :: 0 <= i < |orders| ==>
      OrdersList(orders)[i] == [OrderButton(orders[i])] &&
      OrdersList(orders)[i][0].callbackData == OrderPrefix + NumberText(orders[i])
    ensures OrdersList(orders)[|orders|] == [BackButton]
  {
    ListShape(orders, OrderButton, BackButton);
  }

  /** The staff label has no car field: whatever the order's car, the label is the same. */
  lemma OrderButtonIgnoresCar(o: Order, c: Option<string>)
    ensures OrderButtonText(o.(car := c)) == OrderButtonText(o)
  {
  }

  /** An order with only a number gets the default client, amount and status in its label. */
  lemma OrderButtonDefaults(n: string)
    ensures OrderButton(Order(Some(n), None, None, None, None)) ==
      Button(Concat(["№", n, " - ", "Клиент", " - ", "0", " руб. ", "(", "", ")"]), OrderPrefix + n)
  {
  }

  method GetOrdersListKeyboard(orders: seq<Order>) returns (m: Markup)
    ensures m == OrdersList(orders)
  {
    var builder := new KeyboardBuilder();
    for i := 0 to |orders|
      invariant builder.rows == OrderRows(orders[..i], OrderButton)
    {
      var order := orders[i];
      var orderNumber := NumberText(order);
      var clientName := ClientName(order);
      var amount := AmountText(order);
      var status := StatusText(order);
      var buttonText := Concat(["№", orderNumber, " - ", clientName, " - ", amount, " руб. ", "(", status, ")"]);
      builder.AddRow([Button(buttonText, OrderPrefix + orderNumber)]);
      OrderRowsSnoc(orders[..i], order, OrderButton);
      assert orders[..i + 1] == orders[..i] + [order];
    }
    builder.AddRow([BackButton]);
    assert orders[..|orders|] == orders;
    m := builder.AsMarkup();
  }

  /** The actions on one order: accept and reject it, then back to the list and back to the menu. */
  function OrderActions(orderNumber: string): (m: Markup)
    ensures |m| == 2 && |m[0]| == 2 && |m[1]| == 2
    ensures m[0][0].callbackData == AcceptPrefix + orderNumber
    ensures m[0][1].callbackData == RejectPrefix + orderNumber
    ensures m[1][0].callbackData == ShowOrders && m[1][1].callbackData == BackToMenu
  {
    [[Button("✅ Принять заказ", AcceptPrefix + orderNumber),
      Button("❌ Отклонить заказ", RejectPrefix + orderNumber)],
     [Button("📋 К списку заказов", ShowOrders),
      Button("🔙 В меню", BackToMenu)]]
  }

  method GetOrderActionsKeyboard(orderNumber: string) returns (m: Markup)
    ensures m == OrderActions(orderNumber)
  {
    var builder := new KeyboardBuilder();
    builder.AddRow([Button("✅ Принять заказ", AcceptPrefix + orderNumber),
                    Button("❌ Отклонить заказ", RejectPrefix + orderNumber)]);
    builder.AddRow([Button("📋 К списку заказов", ShowOrders),
                    Button("🔙 В меню", BackToMenu)]);
    m := builder.AsMarkup();
  }

  /**
   * Cutting its own prefix off an emitted token gives the order number back
   * exactly, whatever characters it holds; the other two prefixes do not
   * match it, and no emitted token is one of the fixed menu tokens.
   */
  lemma TokenRoundTrip(n: string)
    ensures StripPrefix(OrderPrefix + n, OrderPrefix) == Some(n)
    ensures StripPrefix(AcceptPrefix + n, AcceptPrefix) == Some(n)
    ensures StripPrefix(RejectPrefix + n, RejectPrefix) == Some(n)
    ensures StripPrefix(OrderPrefix + n, AcceptPrefix) == None && StripPrefix(OrderPrefix + n, RejectPrefix) == None
    ensures StripPrefix(AcceptPrefix + n, OrderPrefix) == None && StripPrefix(AcceptPrefix + n, RejectPrefix) == None
    ensures StripPrefix(RejectPrefix + n, OrderPrefix) == None && StripPrefix(RejectPrefix + n, AcceptPrefix) == None
    ensures ShowOrders !in {OrderPrefix + n, AcceptPrefix + n, RejectPrefix + n}
    ensures BackToMenu !in {OrderPrefix + n, AcceptPrefix + n, RejectPrefix + n}
  {
    assert (OrderPrefix + n)[0] == 'o' && (AcceptPrefix + n)[0] == 'a' && (RejectPrefix + n)[0] == 'r';
    assert (OrderPrefix + n)[..|OrderPrefix|] == OrderPrefix;
    assert (AcceptPrefix + n)[..|AcceptPrefix|] == AcceptPrefix;
    assert (RejectPrefix + n)[..|RejectPrefix|] == RejectPrefix;
  }

  /** Every token of the list keyboard is the back token or an order token whose number comes back exactly. */
  lemma OrdersListTokens(orders: seq<Order>)
    ensures BackToMenu in Tokens(OrdersList(orders))
    ensures forall t :: t in Tokens(OrdersList(orders)) ==>
      t == BackToMenu || exists i :: 0 <= i < |orders| && StripPrefix(t, OrderPrefix) == Some(NumberText(orders[i]))
  {
    var l: Markup := OrdersList(orders);
    var rows := OrderRows(orders, OrderButton);
    if orders != [] {
      OrderRowsAt(orders, OrderButton, 0);
    }
    assert |rows| == |orders| && l == rows + [[BackButton]];
    assert l[|orders|][0].callbackData == BackToMenu;
    forall t | t in Tokens(l)
      ensures t == BackToMenu || exists i :: 0 <= i < |orders| && StripPrefix(t, OrderPrefix) == Some(NumberText(orders[i]))
    {
      var i, j :| 0 <= i < |l| && 0 <= j < |l[i]| && l[i][j].callbackData == t;
      if i < |orders| {
        OrderRowsAt(orders, OrderButton, i);
        assert l[i] == rows[i] == [OrderButton(orders[i])];
        TokenRoundTrip(NumberText(orders[i]));
      }
    }
  }
}
