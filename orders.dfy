/**
 * Orders and responses of the order-management API, as the bot sees them:
 * dictionaries decoded from JSON whose keys may be missing, and the rule by
 * which a handler tells a usable response from an error.
 */
module Orders {
  import opened Wrappers

  /** The `client` sub-dictionary of an order; `name` may be missing. */
  datatype Client = Client(name: Option<string>)

  /**
   * An order dictionary. Each field is `None` when its key is missing and
   * otherwise holds the text Python's f-string formatting gives that value.
   */
  datatype Order = Order(
    number: Option<string>,
    client: Option<Client>,
    car: Option<string>,
    amount: Option<string>,
    status: Option<string>)

  /** `f"{order.get('number')}"`: a missing number formats as `None`. */
  function NumberText(o: Order): (r: string)
    ensures o.number.Some? ==> r == o.number.value
    ensures o.number.None? ==> r == "None"
  {
    o.number.GetOr("None")
  }

  /** `order.get("client", {}).get("name", "Клиент")`. */
  function ClientName(o: Order): (r: string)
    ensures o.client.Some? && o.client.value.name.Some? ==> r == o.client.value.name.value
    ensures o.client.None? || o.client.value.name.None? ==> r == "Клиент"
  {
    match o.client
    case None => "Клиент"
    case Some(c) => c.name.GetOr("Клиент")
  }

  /** `order.get("car", "Автомобиль")`. */
  function CarText(o: Order): (r: string)
    ensures o.car.Some? ==> r == o.car.value
    ensures o.car.None? ==> r == "Автомобиль"
  {
    o.car.GetOr("Автомобиль")
  }

  /** `order.get("amount", 0)`, formatted. */
  function AmountText(o: Order): (r: string)
    ensures o.amount.Some? ==> r == o.amount.value
    ensures o.amount.None? ==> r == "0"
  {
    o.amount.GetOr("0")
  }

  /** `order.get("status", "")`. */
  function StatusText(o: Order): (r: string)
    ensures o.status.Some? ==> r == o.status.value
    ensures o.status.None? ==> r == ""
  {
    o.status.GetOr("")
  }

  /** The keys of the `data` dictionary that the handlers look at; `None` when a key is missing. */
  datatype ResponseData = ResponseData(
    orders: Option<seq<Order>>,
    order: Option<Order>,
    message: Option<string>)

  /** The dictionary the API client returns: `status` and `data` may be missing. */
  datatype Response = Response(status: Option<int>, data: Option<ResponseData>)

  /** `response.get("data", {})`. */
  function DataOf(resp: Response): ResponseData {
    resp.data.GetOr(ResponseData(None, None, None))
  }

  const UnknownError := "Неизвестная ошибка"

  /** `response.get("data", {}).get("message", "Неизвестная ошибка")`. */
  function ErrorText(resp: Response): (r: string)
    ensures DataOf(resp).message.Some? ==> r == DataOf(resp).message.value
    ensures DataOf(resp).message.None? ==> r == UnknownError
    ensures resp.data.None? ==> r == UnknownError
  {
    DataOf(resp).message.GetOr(UnknownError)
  }

  /** What a handler makes of a response. */
  datatype Outcome =
    | Empty
    | List(orders: seq<Order>)
    | Detail(order: Order)
    | Error(message: string)

  /**
   * The order-list handler's decision: success needs status 200 and an
   * `orders` key in `data`; a successful empty list is its own case; every
   * other response is an error carrying the server's message or the
   * fallback text.
   */
  function ClassifyOrders(resp: Response): (r: Outcome)
    ensures !r.Error? <==> resp.status == Some(200) && DataOf(resp).orders.Some?
    ensures r.Empty? <==> resp.status == Some(200) && DataOf(resp).orders == Some([])
    ensures r.List? ==> Some(r.orders) == DataOf(resp).orders && r.orders != []
    ensures r.Error? ==> r.message == ErrorText(resp)
    ensures r.Error? && DataOf(resp).message == None ==> r.message == UnknownError
    ensures !r.Detail?
  {
    if resp.status == Some(200) && DataOf(resp).orders.Some? then
      var orders := DataOf(resp).orders.value;
      if orders == [] then Empty else List(orders)
    else
      Error(ErrorText(resp))
  }

  /**
   * The order-detail handler's decision: the same rule, keyed on `order`,
   * with the same fallback text.
   */
  function ClassifyOrder(resp: Response): (r: Outcome)
    ensures !r.Error? <==> resp.status == Some(200) && DataOf(resp).order.Some?
    ensures r.Detail? ==> Some(r.order) == DataOf(resp).order
    ensures r.Error? ==> r.message == ErrorText(resp)
    ensures r.Error? && DataOf(resp).message == None ==> r.message == UnknownError
    ensures r.Error? || r.Detail?
  {
    if resp.status == Some(200) && DataOf(resp).order.Some? then
      Detail(DataOf(resp).order.value)
    else
      Error(ErrorText(resp))
  }
}
