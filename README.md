# Pickup-date webhook: a Dafny model

The service receives the "order created" webhook from the Jumpseller store
(`POST /webhook/pedido-creado`). It computes the date on which the order can
be collected, three business days after the order was created, skipping
Saturdays and Sundays. It then sends one `PUT` to the store's order API that
sets the order's status to `listo para retirar en tienda`.

The project has two modules:

- `BusinessDays` (`business_days.dfy`) models `calcularFechaRetiro`.
  - A JavaScript `Date` becomes a class `Date` with a single field `day`, the
    number of days since 1970-01-01 in the server's local calendar.
  - `getDay()` is `Weekday(day) = (day + 4) % 7`. 1970-01-01 was a Thursday,
    and 0 is Sunday, 6 is Saturday.
  - `setDate(getDate() + 1)` is `day := day + 1`.
  - The method `CalcularFechaRetiro` keeps the source's loop: it copies the
    start date, then steps one day at a time and counts the days that are not
    0 or 6.
  - The method is proved equal to a reference function, `PickupDate`, which
    hops from business day to business day `n` times.
  - `PickupDate` is then characterised without saying how to find it
    (`IsPickupDate`): it is the first date whose interval (start, date] holds
    exactly `n` business days.
  - It is also proved equal to an arithmetic closed form, which gives the
    bounds on how far the date moves.
- `Webhook` (`webhook.dfy`) models the handler's decisions as a pure function,
  `HandlePedidoCreado`.
  - Its inputs are the two environment variables (absent or a string; the
    empty string counts as unset, as in JavaScript), the parsed JSON body, an
    abstract parser for `created_at`, and whether the outbound `PUT`
    succeeds.
  - Its result is either a response (status code, response text, and the
    single outbound request if one is made) or `Rejected`: the handler threw
    before responding and before calling out.

What the code does, and therefore what the model does:

- The code reads no signature header and computes no HMAC. There is no 401
  response; the handler answers 200, 400 or 500, or throws before answering.
- The code checks `order.id` but never `created_at`. A missing or unparsable
  `created_at` gives an Invalid Date. The loop still stops after three
  steps, because NaN is neither 0 nor 6. The update is still sent, and its
  note then reads "Invalid Date". The model carries this case as a pickup
  day of `None`.
- A JSON object with a `toString` key cannot be converted to a string. As
  the order id, it makes the log line at server.js:71 throw. That line is
  outside the `try`, so no response is sent and no update goes out
  (`Rejected`). As `created_at`, it makes `new Date(...)` throw inside the
  `try`: 500 and no update.
- The code has no explicit branch for N <= 0: its `while` guard fails at
  once. `CalcularFechaRetiro` proves that the result for N <= 0 is the
  start date.

## Model

| member | source | states |
|---|---|---|
| `BusinessDays.Weekday` | server.js:41 | the weekday is a number from 0 (Sunday) to 6 (Saturday) |
| `BusinessDays.WeekdayShift` | server.js:40-41 | moving `k` days forward moves the weekday by `k` modulo 7 |
| `BusinessDays.BusinessDaysBetween` | server.js:39-46 | the count of business days in (start, end] is 0 for an empty interval and never more than the number of days in it |
| `BusinessDays.NextBusinessDay` | server.js:39-46 | the result is a business day 1 to 3 days after `d`, and no day in between is a business day |
| `BusinessDays.PickupDate` | server.js:35-48 | the result is never before the start; for n <= 0 it is the start; for n >= 1 it is strictly later and is not a Saturday or Sunday |
| `BusinessDays.CountAcrossWeekend` | server.js:43-45 | stepping over days that are only weekend days leaves the business-day count unchanged |
| `BusinessDays.PickupDateCountsExactly` | server.js:39-46 | exactly max(n, 0) business days lie in (start, PickupDate(start, n)] |
| `BusinessDays.PickupDateIsFirst` | server.js:39-46 | every date from the start up to the day before the pickup date has counted fewer than n business days |
| `BusinessDays.PickupDateIsUnique` | server.js:39-47 | a date is the first one at which exactly n business days have been counted if and only if it equals PickupDate(start, n) |
| `BusinessDays.PickupDateMatchesClosedForm` | server.js:39-46 | the day-by-day definition equals the arithmetic closed form for every start and n |
| `BusinessDays.PickupDateBounds` | server.js:39-46 | for n >= 0, the date moves forward by at least n and at most n + 2 * ceil(n / 5) calendar days |
| `BusinessDays.BusinessDaysPerWeek` | server.js:41-45 | any 7 consecutive days contain exactly 5 business days |
| `BusinessDays.WalkStep` | server.js:39-46 | one loop step either lands exactly on the next counted business day or stays before it |
| `BusinessDays.Date.Copy` | server.js:37 | `new Date(fechaInicio)` holds the same day as the original |
| `BusinessDays.Date.GetDay` | server.js:41 | `getDay()` is between 0 and 6, and it is neither 0 nor 6 exactly when the date is a business day |
| `BusinessDays.CalcularFechaRetiro` | server.js:35-48 | the loop ends. It returns a fresh Date and leaves the caller's Date unchanged. The result is PickupDate(start, n) and meets IsPickupDate. For n <= 0 it is the start date; for n >= 1 it is a later weekday. n defaults to 3 |
| `BusinessDays.ThreeBusinessDaysExamples` | server.js:35-48 | Friday 2024-06-07 plus 3 is Wednesday 2024-06-12; Monday 2024-06-10 plus 3 is Thursday 2024-06-13 |
| `Webhook.Truthy` | server.js:65 | `undefined` and `null` are falsy; every object and array is truthy |
| `Webhook.IsSet` | server.js:55 | an environment variable counts as set only when it is present and non-empty; the empty string is unset |
| `Webhook.Member` | server.js:65 | a property read finds a value exactly when the value is an object that has the key, and then finds that key's value |
| `Webhook.ToStringThrows` | server.js:71-74 | converting an object to a primitive throws exactly when it has a `toString` key; null, booleans, numbers and strings never throw |
| `Webhook.OrderDate` | server.js:74 | `new Date(created_at)` throws exactly when `created_at` is present and cannot become a primitive; a missing `created_at` gives an Invalid Date |
| `Webhook.PickupDay` | server.js:75 | with 3 business days, a valid order date gives the first date with exactly 3 business days after it, a business day at most 5 days later; an Invalid Date stays invalid |
| `Webhook.HandlePedidoCreado` | server.js:53-104 | missing credentials give 500 and no call. Otherwise a body without a truthy `order.id` gives 400 and no call. An id that cannot become a string makes the handler throw with no response and no call. A `created_at` that cannot become a primitive gives 500 and no call. Otherwise exactly one PUT is made, with that id, the ready-for-pickup status and the store credentials. A PUT that succeeds gives 200 with the success text; a failed PUT gives 500 with the internal-error text |
| `Webhook.ConfigCheckComesFirst` | server.js:55-58 | with credentials missing, the outcome does not depend on the body, the date parser or the network, and no call is made |
| `Webhook.AnnouncedPickupIsThreeBusinessDaysLater` | server.js:73-87 | for a valid order date, the announced pickup day is a business day at most 5 days later. It is the first date with exactly 3 business days in (order date, pickup] |
| `Webhook.OrderCreatedOnFridayExample` | server.js:53-104 | order 123 created on Friday 2024-06-07 gets 200 and one PUT for order 123 that announces 2024-06-12 |
| `Webhook.ThrowingValuesExample` | server.js:71-102 | the id `{"toString":1}` leaves the request unanswered with no call; the same value as `created_at` gives 500 with no call |

## Left out

- Express routing, `express.json()`, `app.listen` and the port (server.js:6-16, 109-111) are framework and process plumbing. The body reaches the model already parsed.
- Reading `JUMPSELLER_LOGIN` and `JUMPSELLER_TOKEN` from the environment (server.js:21-22) is not modelled. Their values are inputs to the handler.
- The axios call (server.js:95) is a foreign network client. It becomes the boolean `putSucceeds`. What the remote API does with the update is not modelled.
- Webhook.HandlePedidoCreado: the request names the order by the id's JSON value. The text of the URL (`.../orders/${orderId}.json`, server.js:80) is not built; only whether converting the id to a string throws is modelled.
- Webhook.HandlePedidoCreado: what follows a throw outside the `try` (`Rejected`) is not modelled. Express 4 leaves the promise rejection unhandled, and recent Node versions then end the process; Express 5 answers 500.
- Webhook.OrderDate: how `new Date(...)` parses a `created_at` that converts to a primitive (server.js:74) is a parameter, `parseDate`. JavaScript's date parsing, time zones and daylight-saving shifts under `getDay`/`setDate` are library semantics. Days are whole local calendar days.
- `toLocaleDateString('es-CL')` and the note text (server.js:76, 85) are locale-dependent formatting. The update carries the pickup day number instead of the note string.
- Console logging (server.js:56, 60-62, 71, 78, 94, 96, 101) writes nothing the handler reads back. Its only effect on the outcome is the throw at server.js:71 (see above), which is modelled.
- BusinessDays.CalcularFechaRetiro: `diasHabiles` is a whole number. JavaScript would also accept a fraction, NaN or Infinity: 2.5 acts like 3, NaN acts like 0, and Infinity makes the loop run forever.
- BusinessDays.CalcularFechaRetiro: the day number is unbounded. A JavaScript Date only covers 100,000,000 days either side of 1970-01-01. One step past that limit, `setDate` gives an Invalid Date, whose NaN weekday makes every later step count, so the source returns an Invalid Date where the model returns a valid day.
- Webhook.Truthy: JSON numbers are whole numbers, so a fractional number such as 0.5 (truthy in JavaScript) cannot be written.
- Webhook signature (HMAC) verification: the code has none, so there is nothing to model.
