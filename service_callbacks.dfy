/**
 * The callback side of the mechanics' bot: which handler a button press
 * reaches, how a handler recovers the order number from the button's token,
 * and what each handler does with the API's response. Handlers read and
 * write no session state; what they do is a sequence of reactions.
 */
module ServiceCallbacks {
  import opened Wrappers
  import opened Text
  import opened Orders
  import opened Keyboard
  import SK = ServiceKeyboards

  /** One step of a callback handler, in the order the handler takes it. */
  datatype Reaction =
    | AnswerCallback(notice: Option<string>)        // callback.answer(...)
    | ApiGet(path: string)                          // a GET request to the order API
    | Reply(text: string, markup: Option<Markup>)   // callback.message.answer(...)

  /** The callback handlers of the router, and none. */
  datatype Handler =
    | ShowOrdersHandler
    | OrderDetailsHandler
    | AcceptHandler
    | RejectHandler
    | BackToMenuHandler
    | NoHandler

  /**
   * The first handler, in registration order, whose filter accepts the
   * callback data.
   */
  function Route(data: string): Handler {
    if data == SK.ShowServiceOrders then ShowOrdersHandler
    else if StartsWith(data, SK.OrderPrefix) then OrderDetailsHandler
    else if StartsWith(data, SK.AcceptPrefix) then AcceptHandler
    else if StartsWith(data, SK.RejectPrefix) then RejectHandler
    else if data == SK.ServiceBackToMenu then BackToMenuHandler
    else NoHandler
  }

  // ---------------------------------------------------------------------
  // Order numbers inside tokens
  // ---------------------------------------------------------------------

  /** The three two-word prefixes under which the keyboards embed an order number. */
  predicate NumberPrefix(prefix: string) {
    prefix == SK.OrderPrefix || prefix == SK.AcceptPrefix || prefix == SK.RejectPrefix
  }

  /** The second word of a number prefix: `order`, `accept` or `reject`. */
  function PrefixWord(prefix: string): string {
    if prefix == SK.OrderPrefix then "order" else if prefix == SK.AcceptPrefix then "accept" else "reject"
  }

  /** Two `_`-free words, each followed by `_`, split off as the first two fields. */
  lemma {:induction false} SplitTwoWords(a: string, b: string, n: string)
    requires '_' !in a && '_' !in b
    ensures Split(a + "_" + b + "_" + n, '_') == [a, b] + Split(n, '_')
  {
    assert a + "_" + b + "_" + n == a + ['_'] + (b + ['_'] + n);
    SplitAfterField(a, '_', b + ['_'] + n);
    SplitAfterField(b, '_', n);
  }

  /**
   * Splitting a prefixed token on `_`: the prefix's two words, then the
   * fields of the number.
   */
  lemma SplitPrefixed(prefix: string, n: string)
    requires NumberPrefix(prefix)
    ensures Split(prefix + n, '_') == ["service", PrefixWord(prefix)] + Split(n, '_')
  {
    var w := PrefixWord(prefix);
    assert prefix == "service" + "_" + w + "_";
    assert '_' !in w;
    SplitTwoWords("service", w, n);
  }

  /** Data that starts with a number prefix has a third `_`-separated field. */
  lemma PrefixedHasNumber(data: string)
    ensures (exists prefix :: NumberPrefix(prefix) && StartsWith(data, prefix)) ==> Field(data, '_', 2).Some?
  {
    if prefix :| NumberPrefix(prefix) && StartsWith(data, prefix) {
      SplitPrefixed(prefix, data[|prefix|..]);
      assert prefix + data[|prefix|..] == data;
    }
  }

  /** `callback.data.split("_")[2]`; `None` where Python raises IndexError. */
  function OrderNumberOf(data: string): (r: Option<string>)
    ensures (exists prefix :: NumberPrefix(prefix) && StartsWith(data, prefix)) ==> r.Some?
  {
    PrefixedHasNumber(data);
    Field(data, '_', 2)
  }

  /**
   * The three handlers that read `split("_")[2]` are picked only for data
   * that has that field, so none of them raises IndexError.
   */
  lemma RoutedHasNumber(data: string)
    ensures Route(data) in {OrderDetailsHandler, AcceptHandler, RejectHandler} ==> OrderNumberOf(data).Some?
  {
    assert NumberPrefix(SK.OrderPrefix) && NumberPrefix(SK.AcceptPrefix) && NumberPrefix(SK.RejectPrefix);
  }

  /**
   * Round trip: the number recovered from an emitted token is the number's
   * first `_`-separated segment, so it is the number itself exactly when the
   * number has no `_`.
   */
  lemma OrderNumberRoundTrip(prefix: string, n: string)
    requires NumberPrefix(prefix)
    ensures OrderNumberOf(prefix + n) == Some(Split(n, '_')[0])
    ensures OrderNumberOf(prefix + n) == Some(n) <==> '_' !in n
  {
    SplitPrefixed(prefix, n);
    if '_' !in n {
      SplitWithoutSeparator(n, '_');
    }
  }

  // ---------------------------------------------------------------------
  // The handlers
  // ---------------------------------------------------------------------

  const ListPath := "/service-orders"
  const EmptyListText := "📋 Список заказов СТО пуст"
  const ListHeader := "📋 <b>Список всех заказов СТО:</b>\n\n"
  const ListErrorPrefix := "❌ Ошибка при получении списка заказов СТО: "
  const DetailErrorPrefix := "❌ Ошибка при получении деталей заказа СТО: "

  function DetailHeader(orderNumber: string): string {
    "📝 <b>Детали заказа СТО #" + orderNumber + ":</b>\n\n"
  }

  /**
   * Showing all orders: acknowledge, fetch the list, then reply with the
   * empty-list text, the formatted list under its keyboard, or the error.
   */
  function ShowServiceOrders(resp: Response, formatList: seq<Order> -> string): (r: seq<Reaction>)
    ensures |r| == 3 && r[0] == AnswerCallback(None) && r[1] == ApiGet(ListPath)
    ensures resp.status == Some(200) && DataOf(resp).orders == Some([]) ==> r[2] == Reply(EmptyListText, None)
    ensures !(resp.status == Some(200) && DataOf(resp).orders.Some?) ==>
      r[2] == Reply(ListErrorPrefix + ErrorText(resp), None)
    ensures r[2].Reply? && (r[2].markup.Some? <==> resp.status == Some(200) && DataOf(resp).orders.Some? && DataOf(resp).orders.value != [])
    ensures r[2].markup.Some? ==>
      var orders := DataOf(resp).orders.value;
      r[2] == Reply(ListHeader + formatList(orders), Some(SK.OrdersList(orders)))
  {
    [AnswerCallback(None), ApiGet(ListPath)] +
    match ClassifyOrders(resp)
    case Empty => [Reply(EmptyListText, None)]
    case List(orders) => [Reply(ListHeader + formatList(orders), Some(SK.OrdersList(orders)))]
    case Error(message) => [Reply(ListErrorPrefix + message, None)]
  }

  /**
   * Showing one order: the number is taken from the token, then
   * acknowledge, fetch that order, and reply with its details under the
   * actions keyboard for that number, or the error.
   */
  function ShowServiceOrderDetails(data: string, resp: Response, formatOrder: Order -> string): (r: seq<Reaction>)
    requires StartsWith(data, SK.OrderPrefix)
    ensures OrderNumberOf(data).Some?
    ensures var n := OrderNumberOf(data).value;
      |r| == 3 && r[0] == AnswerCallback(None) && r[1] == ApiGet(ListPath + "/" + n) &&
      r[2].Reply? && (r[2].markup.Some? <==> resp.status == Some(200) && DataOf(resp).order.Some?) &&
      (r[2].markup.Some? ==> r[2] == Reply(DetailHeader(n) + formatOrder(DataOf(resp).order.value), Some(SK.OrderActions(n)))) &&
      (r[2].markup.None? ==> r[2] == Reply(DetailErrorPrefix + ErrorText(resp), None))
  {
    var orderNumber := OrderNumberOf(data).value;
    [AnswerCallback(None), ApiGet(ListPath + "/" + orderNumber)] +
    match ClassifyOrder(resp)
    case Detail(order) => [Reply(DetailHeader(orderNumber) + formatOrder(order), Some(SK.OrderActions(orderNumber)))]
    case Error(message) => [Reply(DetailErrorPrefix + message, None)]
  }

  /** Accepting an order: a notice and a confirmation naming the number; nothing is sent to the API. */
  function AcceptServiceOrder(data: string): (r: seq<Reaction>)
    requires StartsWith(data, SK.AcceptPrefix)
    ensures OrderNumberOf(data).Some?
    ensures |r| == 2 && r[0] == AnswerCallback(Some("✅ Заказ принят")) && r[1].Reply? && r[1].markup == None
    ensures Contains(r[1].text, OrderNumberOf(data).value)
    ensures forall k :: 0 <= k < |r| ==> !r[k].ApiGet?
  {
    var orderNumber := OrderNumberOf(data).value;
    ContainsMiddle("✅ Заказ СТО #", orderNumber, " успешно принят!");
    [AnswerCallback(Some("✅ Заказ принят")), Reply("✅ Заказ СТО #" + orderNumber + " успешно принят!", None)]
  }

  /** Rejecting an order: a notice and a confirmation naming the number; nothing is sent to the API. */
  function RejectServiceOrder(data: string): (r: seq<Reaction>)
    requires StartsWith(data, SK.RejectPrefix)
    ensures OrderNumberOf(data).Some?
    ensures |r| == 2 && r[0] == AnswerCallback(Some("❌ Заказ отклонен")) && r[1].Reply? && r[1].markup == None
    ensures Contains(r[1].text, OrderNumberOf(data).value)
    ensures forall k :: 0 <= k < |r| ==> !r[k].ApiGet?
  {
    var orderNumber := OrderNumberOf(data).value;
    ContainsMiddle("❌ Заказ СТО #", orderNumber, " отклонен!");
    [AnswerCallback(Some("❌ Заказ отклонен")), Reply("❌ Заказ СТО #" + orderNumber + " отклонен!", None)]
  }

  /** Back to the menu: acknowledge and show the main menu. */
  function BackToServiceMenu(): (r: seq<Reaction>)
    ensures |r| == 2 && r[0] == AnswerCallback(None) && r[1].Reply? && r[1].markup == Some(SK.MainMenu())
    ensures forall k :: 0 <= k < |r| ==> !r[k].ApiGet?
  {
    [AnswerCallback(None), Reply("🏠 Главное меню", Some(SK.MainMenu()))]
  }

  /** A button press, handed to the handler `Route` picks; an unhandled one does nothing. */
  function HandleCallback(data: string, resp: Response, formatList: seq<Order> -> string,
                          formatOrder: Order -> string): (r: seq<Reaction>)
    ensures r == [] <==> Route(data) == NoHandler
    ensures (exists k :: 0 <= k < |r| && r[k].ApiGet?) <==> Route(data) in {ShowOrdersHandler, OrderDetailsHandler}
  {
    match Route(data)
    case ShowOrdersHandler => ShowServiceOrders(resp, formatList)
    case OrderDetailsHandler => ShowServiceOrderDetails(data, resp, formatOrder)
    case AcceptHandler => AcceptServiceOrder(data)
    case RejectHandler => RejectServiceOrder(data)
    case BackToMenuHandler => BackToServiceMenu()
    case NoHandler => []
  }

  // ---------------------------------------------------------------------
  // Keyboards and handlers together
  // ---------------------------------------------------------------------

  /**
   * A details token for number `n` reaches the details handler, which asks
   * the API for that number exactly when the number has no `_`.
   */
  lemma DetailsTokenRoutes(n: string, resp: Response,
                           formatList: seq<Order> -> string, formatOrder: Order -> string)
    ensures var token := SK.OrderPrefix + n;
      Route(token) == OrderDetailsHandler &&
      (HandleCallback(token, resp, formatList, formatOrder)[1] == ApiGet(ListPath + "/" + n) <==> '_' !in n)
  {
    var token := SK.OrderPrefix + n;
    assert token[..|SK.OrderPrefix|] == SK.OrderPrefix;
    assert token[1] == 'e';
    OrderNumberRoundTrip(SK.OrderPrefix, n);
    var m := OrderNumberOf(token).value;
    assert HandleCallback(token, resp, formatList, formatOrder)[1] == ApiGet(ListPath + "/" + m);
    assert ListPath + "/" + m == ListPath + "/" + n ==> m == n by {
      if ListPath + "/" + m == ListPath + "/" + n {
        assert m == (ListPath + "/" + m)[|ListPath| + 1..];
      }
    }
  }

  /**
   * Pressing row `i` of the list keyboard reaches the details handler, which
   * asks the API for that order's number exactly when the number has no `_`.
   */
  lemma ListRowReachesDetails(orders: seq<Order>, i: nat, resp: Response,
                              formatList: seq<Order> -> string, formatOrder: Order -> string)
    requires i < |orders|
    ensures |SK.OrdersList(orders)| == |orders| + 1 && SK.OrdersList(orders)[i] == [SK.OrderButton(orders[i])]
    ensures var token := SK.OrdersList(orders)[i][0].callbackData;
      token == SK.OrderToken(orders[i]) &&
      Route(token) == OrderDetailsHandler &&
      (HandleCallback(token, resp, formatList, formatOrder)[1] == ApiGet(ListPath + "/" + NumberText(orders[i])) <==>
       '_' !in NumberText(orders[i]))
  {
    SK.OrdersListShape(orders);
    DetailsTokenRoutes(NumberText(orders[i]), resp, formatList, formatOrder);
  }

  /** A token under the accept or reject prefix reaches that prefix's handler. */
  lemma ActionTokenRoutes(n: string)
    ensures Route(SK.AcceptPrefix + n) == AcceptHandler
    ensures Route(SK.RejectPrefix + n) == RejectHandler
  {
    var accept, reject := SK.AcceptPrefix + n, SK.RejectPrefix + n;
    assert accept[1] != SK.ShowServiceOrders[1] && accept[8] != SK.OrderPrefix[8];
    assert accept[..|SK.AcceptPrefix|] == SK.AcceptPrefix;
    assert reject[1] != SK.ShowServiceOrders[1] && reject[8] != SK.OrderPrefix[8] && reject[8] != SK.AcceptPrefix[8];
    assert reject[..|SK.RejectPrefix|] == SK.RejectPrefix;
  }

  /** The two fixed tokens of the actions keyboard reach their handlers. */
  lemma FixedTokenRoutes()
    ensures Route(SK.ShowServiceOrders) == ShowOrdersHandler
    ensures Route(SK.ServiceBackToMenu) == BackToMenuHandler
  {
    var back := SK.ServiceBackToMenu;
    assert back[1] != SK.ShowServiceOrders[1] && back[8] != SK.OrderPrefix[8];
    assert back[8] != SK.AcceptPrefix[8] && back[8] != SK.RejectPrefix[8];
  }

  /**
   * Every button of the actions keyboard for number `n` reaches its own
   * handler; accept and reject confirm the number `n` when it has no `_`.
   */
  lemma ActionsKeyboardRoutes(n: string)
    ensures var m := SK.OrderActions(n);
      Route(m[0][0].callbackData) == AcceptHandler &&
      Route(m[0][1].callbackData) == RejectHandler &&
      Route(m[1][0].callbackData) == ShowOrdersHandler &&
      Route(m[1][1].callbackData) == BackToMenuHandler
    ensures '_' !in n ==> OrderNumberOf(SK.AcceptPrefix + n) == Some(n) && OrderNumberOf(SK.RejectPrefix + n) == Some(n)
  {
    ActionTokenRoutes(n);
    FixedTokenRoutes();
    OrderNumberRoundTrip(SK.AcceptPrefix, n);
    OrderNumberRoundTrip(SK.RejectPrefix, n);
  }

  /**
   * The main menu's help button reaches no callback handler of this router,
   * while its other button shows the orders.
   */
  lemma MainMenuRoutes()
    ensures Route(SK.MainMenu()[0][0].callbackData) == ShowOrdersHandler
    ensures Route(SK.MainMenu()[1][0].callbackData) == NoHandler
  {
    assert SK.Help[0] == 'h';
  }

  /** A list response with no `message` and a status other than 200 is reported with the fallback text. */
  lemma FailedListUsesFallback(status: int, formatList: seq<Order> -> string)
    requires status != 200
    ensures ShowServiceOrders(Response(Some(status), None), formatList)[2] ==
      Reply(ListErrorPrefix + "Неизвестная ошибка", None)
  {
  }
}
