/** The decision logic of the `POST /webhook/pedido-creado` handler: which
    response the webhook sender gets, and which update (if any) is sent to
    the order platform.

    The handler is a straight line of early returns, so it is modelled as a
    pure function from its inputs to an Outcome. What lies outside the
    handler's own code is a parameter: the two environment variables, the
    parsed JSON body, how `new Date(...)` reads a creation timestamp that
    converts to a primitive, and whether the single outbound PUT succeeds. */
module Webhook {
  import BusinessDays

  datatype Option<T> = None | Some(value: T)

  /** A parsed JSON value. Numbers are whole numbers here. */
  datatype Json =
    | JNull
    | JBool(b: bool)
    | JNumber(n: int)
    | JString(s: string)
    | JArray(items: seq<Json>)
    | JObject(fields: map<string, Json>)

  /** JavaScript truthiness of a value that may be `undefined` (None). */
  predicate Truthy(v: Option<Json>)
    ensures Truthy(v) ==> v.Some? && !v.value.JNull?
    ensures v.Some? && (v.value.JArray? || v.value.JObject?) ==> Truthy(v)
  {
    match v
    case None => false
    case Some(JNull) => false
    case Some(JBool(b)) => b
    case Some(JNumber(n)) => n != 0
    case Some(JString(s)) => s != ""
    case Some(JArray(_)) => true
    case Some(JObject(_)) => true
  }

  /** JavaScript property read `v.key` on a value already known to be
      truthy: only an object has the keys this handler reads. */
  function Member(v: Option<Json>, key: string): (r: Option<Json>)
    ensures r.Some? <==> v.Some? && v.value.JObject? && key in v.value.fields
    ensures r.Some? ==> r.value == v.value.fields[key]
  {
    match v
    case Some(JObject(fields)) => if key in fields then Some(fields[key]) else None
    case _ => None
  }

  /** Converting a parsed JSON value to a primitive (`${v}` at server.js:71,
      `new Date(v)` at server.js:74) throws a TypeError exactly when the
      value is, or an array holds, an object with an own `toString` key: a
      JSON value is never callable, so neither `toString` nor `valueOf`
      yields a primitive. An object without that key becomes
      "[object Object]"; an array joins its items' strings. */
  predicate ToStringThrows(v: Json)
    ensures v.JObject? ==> (ToStringThrows(v) <==> "toString" in v.fields)
    ensures !v.JObject? && !v.JArray? ==> !ToStringThrows(v)
  {
    match v
    case JObject(fields) => "toString" in fields
    case JArray(items) => exists i :: 0 <= i < |items| && ToStringThrows(items[i])
    case _ => false
  }

  /** An environment variable is usable when it is set and not empty: the
      empty string is falsy. */
  predicate IsSet(v: Option<string>)
    ensures IsSet(v) ==> v.Some? && |v.value| > 0
    ensures v == Some("") ==> !IsSet(v)
  {
    v.Some? && v.value != ""
  }

  /** The process environment the handler reads: the store login and token. */
  datatype Env = Env(login: Option<string>, token: Option<string>)

  datatype BasicAuth = BasicAuth(username: string, password: string)

  /** The body of the outbound PUT. `pickup` is the pickup day that the
      shipping note shows, or None when the creation timestamp was not a
      valid date (the note then reads "Invalid Date"). */
  datatype StatusUpdate = StatusUpdate(status: string, pickup: Option<int>)

  /** `PUT https://api.jumpseller.com/v1/orders/{orderId}.json`. */
  datatype PutRequest = PutRequest(orderId: Json, update: StatusUpdate, auth: BasicAuth)

  /** What a request leads to: a response (with the outbound call made, if
      any), or a handler that throws before it responds and before it
      calls out. */
  datatype Outcome =
    | Responded(status: int, message: string, put: Option<PutRequest>)
    | Rejected
  {
    /** The outbound call this outcome made, if any. */
    function Calls(): Option<PutRequest> {
      match this
      case Responded(_, _, put) => put
      case Rejected => None
    }
  }

  /** The result of `new Date(created_at)`: a TypeError, or a Date whose
      day is None when it is an Invalid Date. */
  datatype NewDate = TypeError | DateOf(day: Option<int>)

  const StatusOk := 200
  const StatusBadRequest := 400
  const StatusServerError := 500

  const ReadyForPickup := "listo para retirar en tienda"

  const ConfigErrorMessage := "Error de configuración del servidor."
  const BadPayloadMessage := "Webhook con formato inválido."
  const SuccessMessage := "Webhook procesado exitosamente."
  const InternalErrorMessage := "Error interno del servidor."

  /** Both store credentials are set. */
  predicate CredentialsConfigured(env: Env) {
    IsSet(env.login) && IsSet(env.token)
  }

  /** The body carries an object `order` with a non-empty `id`: stated as
      the shape of the JSON, independently of the property reads the
      handler performs. */
  predicate HasOrderId(body: Option<Json>) {
    && body.Some? && body.value.JObject? && "order" in body.value.fields
    && body.value.fields["order"].JObject?
    && "id" in body.value.fields["order"].fields
    && Truthy(Some(body.value.fields["order"].fields["id"]))
  }

  /** The `order` object of a body that has an order id. */
  function OrderFields(body: Option<Json>): map<string, Json>
    requires HasOrderId(body)
  {
    body.value.fields["order"].fields
  }

  /** The order's `created_at` is present and cannot be converted to a
      primitive. */
  predicate CreatedAtThrows(body: Option<Json>)
    requires HasOrderId(body)
  {
    "created_at" in OrderFields(body) && ToStringThrows(OrderFields(body)["created_at"])
  }

  /** `new Date(req.body.order.created_at)`: a missing `created_at` gives an
      Invalid Date, a value that cannot become a primitive throws, and any
      other value is read by `parseDate` (None for an Invalid Date). */
  function OrderDate(createdAt: Option<Json>, parseDate: Json -> Option<int>): (d: NewDate)
    ensures d.TypeError? <==> createdAt.Some? && ToStringThrows(createdAt.value)
    ensures createdAt.None? ==> d == DateOf(None)
  {
    match createdAt
    case None => DateOf(None)
    case Some(v) => if ToStringThrows(v) then TypeError else DateOf(parseDate(v))
  }

  /** `calcularFechaRetiro(fechaPedido, 3)`: the handler passes 3
      explicitly, the same as the function's default. A valid order date
      gives the first date with exactly three business days after it, at
      most five calendar days later. An Invalid Date stays invalid: its
      weekday is NaN, which is neither 0 nor 6, so the loop counts every
      step and stops after three. */
  function PickupDay(orderDate: Option<int>): (p: Option<int>)
    ensures p.Some? <==> orderDate.Some?
    ensures orderDate.Some? ==>
      && BusinessDays.IsPickupDate(orderDate.value, 3, p.value)
      && BusinessDays.IsBusinessDay(p.value)
      && orderDate.value < p.value <= orderDate.value + 5
  {
    match orderDate
    case None => None
    case Some(d) =>
      BusinessDays.PickupDateIsUnique(d, 3, BusinessDays.PickupDate(d, 3));
      BusinessDays.PickupDateBounds(d, 3);
      Some(BusinessDays.PickupDate(d, 3))
  }

  /** The handler. `putSucceeds` is whether the awaited PUT resolves; any
      error thrown inside the `try` is caught and answered with 500. */
  function HandlePedidoCreado(env: Env, body: Option<Json>, parseDate: Json -> Option<int>,
                              putSucceeds: bool): (o: Outcome)
    ensures o.Responded? ==> o.status in {StatusOk, StatusBadRequest, StatusServerError}
    ensures !CredentialsConfigured(env) ==> o == Responded(StatusServerError, ConfigErrorMessage, None)
    ensures CredentialsConfigured(env) && !HasOrderId(body) ==>
      o == Responded(StatusBadRequest, BadPayloadMessage, None)
    ensures o.Rejected? <==>
      CredentialsConfigured(env) && HasOrderId(body) && ToStringThrows(OrderFields(body)["id"])
    ensures CredentialsConfigured(env) && HasOrderId(body) && !ToStringThrows(OrderFields(body)["id"])
            && CreatedAtThrows(body) ==>
      o == Responded(StatusServerError, InternalErrorMessage, None)
    ensures o.Calls().Some? <==>
      && CredentialsConfigured(env) && HasOrderId(body)
      && !ToStringThrows(OrderFields(body)["id"]) && !CreatedAtThrows(body)
    ensures o.Calls().Some? ==>
      o == if putSucceeds then Responded(StatusOk, SuccessMessage, o.Calls())
           else Responded(StatusServerError, InternalErrorMessage, o.Calls())
    ensures o.Responded? && o.status == StatusOk <==> o.Calls().Some? && putSucceeds
    ensures o.Calls().Some? ==>
      && o.Calls().value.orderId == OrderFields(body)["id"]
      && o.Calls().value.update.status == ReadyForPickup
      && o.Calls().value.auth == BasicAuth(env.login.value, env.token.value)
  {
    if !IsSet(env.login) || !IsSet(env.token) then
      Responded(StatusServerError, ConfigErrorMessage, None)
    else if !Truthy(body) || !Truthy(Member(body, "order"))
         || !Truthy(Member(Member(body, "order"), "id")) then
      Responded(StatusBadRequest, BadPayloadMessage, None)
    else
      var order := Member(body, "order");
      var orderId := Member(order, "id").value;
      // The log line before the `try` interpolates the id.
      if ToStringThrows(orderId) then Rejected
      else
        match OrderDate(Member(order, "created_at"), parseDate)
        case TypeError => Responded(StatusServerError, InternalErrorMessage, None)
        case DateOf(fechaPedido) =>
          var request := PutRequest(orderId, StatusUpdate(ReadyForPickup, PickupDay(fechaPedido)),
                                    BasicAuth(env.login.value, env.token.value));
          if putSucceeds then Responded(StatusOk, SuccessMessage, Some(request))
          else Responded(StatusServerError, InternalErrorMessage, Some(request))
  }

  /** Missing credentials are answered before the body is looked at: the
      outcome does not depend on the body, the date parser or the network. */
  lemma ConfigCheckComesFirst(env: Env, b1: Option<Json>, b2: Option<Json>,
                              p1: Json -> Option<int>, p2: Json -> Option<int>, ok1: bool, ok2: bool)
    requires !CredentialsConfigured(env)
    ensures HandlePedidoCreado(env, b1, p1, ok1) == HandlePedidoCreado(env, b2, p2, ok2)
    ensures HandlePedidoCreado(env, b1, p1, ok1).Calls().None?
  {
  }

  /** When an update is sent and the order's `created_at` is a valid date,
      the pickup day it announces is a business day strictly after the order
      date, exactly three business days later, and at most five calendar
      days later. */
  lemma AnnouncedPickupIsThreeBusinessDaysLater(env: Env, body: Option<Json>,
                                                parseDate: Json -> Option<int>, putSucceeds: bool)
    requires HandlePedidoCreado(env, body, parseDate, putSucceeds).Calls().Some?
    requires OrderDate(Member(Member(body, "order"), "created_at"), parseDate).DateOf?
    requires OrderDate(Member(Member(body, "order"), "created_at"), parseDate).day.Some?
    ensures
      var d := OrderDate(Member(Member(body, "order"), "created_at"), parseDate).day.value;
      var p := HandlePedidoCreado(env, body, parseDate, putSucceeds).Calls().value.update.pickup;
      && p.Some?
      && d < p.value <= d + 5
      && BusinessDays.IsBusinessDay(p.value)
      && BusinessDays.BusinessDaysBetween(d, p.value) == 3
      && forall e :: d <= e < p.value ==> BusinessDays.BusinessDaysBetween(d, e) < 3
  {
  }

  /** The end-to-end example: an order with id 123 created on Friday
      2024-06-07 (day 19881) gets 200 and one update announcing Wednesday
      2024-06-12 (day 19886). */
  lemma OrderCreatedOnFridayExample(login: string, token: string, parseDate: Json -> Option<int>)
    requires login != "" && token != ""
    requires parseDate(JString("2024-06-07T10:00:00Z")) == Some(19881)
    ensures
      var order := JObject(map["id" := JNumber(123), "created_at" := JString("2024-06-07T10:00:00Z")]);
      var body := Some(JObject(map["order" := order]));
      HandlePedidoCreado(Env(Some(login), Some(token)), body, parseDate, true)
        == Responded(StatusOk, SuccessMessage,
                     Some(PutRequest(JNumber(123), StatusUpdate(ReadyForPickup, Some(19886)),
                                     BasicAuth(login, token))))
  {
  }

  /** An id that cannot become a string makes the handler throw at the log
      line before its `try`: nothing is answered and nothing is sent. A
      `created_at` that cannot become a primitive throws inside the `try`:
      500 and nothing is sent. */
  lemma ThrowingValuesExample(login: string, token: string, parseDate: Json -> Option<int>, ok: bool)
    requires login != "" && token != ""
    ensures
      var bad := JObject(map["toString" := JNumber(1)]);
      var env := Env(Some(login), Some(token));
      && HandlePedidoCreado(env, Some(JObject(map["order" := JObject(map["id" := bad])])), parseDate, ok)
         == Rejected
      && HandlePedidoCreado(env, Some(JObject(map["order" := JObject(map["id" := JNumber(7), "created_at" := bad])])),
                            parseDate, ok)
         == Responded(StatusServerError, InternalErrorMessage, None)
  {
  }
}
