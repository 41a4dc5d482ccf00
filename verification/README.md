# Delivery API load test: the verified core

This project models the logic of the Locust script `load_tests/locust_test.py`
that drives synthetic traffic against the Ten Minute Delivery API. Two pieces of it
have behaviour of their own:

- **`CustomLoadShape`**: a staged ramp. A Locust runner would poll its `tick`, once
  the class is installed as a `LoadTestShape`. As written, the class has no base
  class, so Locust never picks it up. `tick` holds an
  immutable stage table `(duration, users, spawn_rate)`, a stage index that only
  moves forward, and a start time fixed by the first poll. Each poll either returns
  the current stage's `(users, spawn_rate)`, or moves on by exactly one stage. It
  returns `None` to stop the test once it runs past the table.
- **`DeliveryAPIUser`**: a simulated shopper. Each task turns the response's status
  code and decoded body into a report for Locust: success, or failure with a reason
  string. The user also keeps a little session state: the login token, the
  `Authorization` default header derived from it, and the product id cached from a
  product listing.

The Dafny modules follow that split:

- `Json` (`json.dfy`): decoded JSON documents (`Obj | Arr | Str | Num | Bool | Null`)
  and the result of `response.json()` (`Parsed(doc) | ParseError`). It also holds the
  pieces of Python semantics the tasks depend on: truthiness, `dict.get`, and the `in`
  operator. On a number, a bool or `None`, `in` raises `TypeError`.
- `Numerals` (`numerals.dfy`): Python's `str(n)` for the numbers the script formats,
  proved injective through its inverse.
- `Classify` (`classify.dfy`): one pure decision function per task, and the task
  catalogue with each task's status allow-list.
- `Session` (`session.dfy`): the class `DeliveryAPIUser`. Its fields are `token`,
  `productId` and `headers`. Its methods are the tasks that read or write those
  fields. The token lookup `data.get("data", {}).get("token") or data.get("token")`
  is a function returning an optional value, so a swallowed exception is an ordinary
  `None`.
- `LoadShape` (`load_shape.dfy`): the functions `Step` and `Run` specify `tick`. The
  class `CustomLoadShape` has `Tick(now)`, proved against `Step`, and the method
  `PollUntilStop` proves that repeated `Tick` calls follow `Run`. Lemmas cover runs
  of polls, and the module also gives the intended reading of the stage table (see
  Findings).
- `Wrappers` (`wrappers.dfy`): `Option`.

Python's `None` is the value `Null`. `product_id` is read through
`getattr(self, 'product_id', None)`, so an attribute the script never set is `Null`
as well. The report a task makes follows Locust's `catch_response` rule: when a task
calls `response.success()` and then `response.failure(...)`, the later call is the
one reported. `browse_products` does exactly this when the first product is not an
object.

## Model

| member | source | states |
|---|---|---|
| `Json.Contains` | load_tests/locust_test.py:79 | `key in v` raises `TypeError` exactly on numbers, bools and `None`; on a dict it is key membership, on a list it is element equality, and on a str it holds exactly when the key occurs at some position |
| `Json.HasSubstringAt` | load_tests/locust_test.py:149 | `in` on two strings holds exactly when the pattern occurs at some position |
| `Numerals.Decimal` | load_tests/locust_test.py:86 | the text of a status code is a non-empty string of digits with no leading zero |
| `Numerals.ParseDecimalOfDecimal` | load_tests/locust_test.py:86 | reading the decimal text of `n` back gives `n` |
| `Numerals.DecimalInjective` | load_tests/locust_test.py:121 | distinct numbers have distinct decimal texts |
| `Classify.Message` | load_tests/locust_test.py:84-86 | only a status failure's message begins with `Status code: ` |
| `Classify.MessageInjective` | load_tests/locust_test.py:82-86 | distinct failure reasons give distinct messages, and a status message names the exact code |
| `Classify.ListingShape` | load_tests/locust_test.py:77-84 | the shape check succeeds iff the document is an object with `"data"` bound to a list; it reports a parse failure exactly when `in` or `data["data"]` raises, and `Invalid response format` otherwise |
| `Classify.ListingOutcome` | load_tests/locust_test.py:76-86 | categories and best-sellers succeed iff the status is 200, the body decodes and `"data"` is a list; any other status fails with `Status code: <n>`, and an undecodable body fails with `Failed to parse response` |
| `Classify.ProductsOutcome` | load_tests/locust_test.py:101-115 | a product listing succeeds iff the listing check passes and the list is empty or starts with an object; it caches an id only on success with a non-empty list, and then it caches the first product's `"id"` (`None` if absent); a non-object first product turns the report into a parse failure |
| `Classify.SearchOutcome` | load_tests/locust_test.py:146-156 | search succeeds iff the status is 200, the body decodes and the document is a list, an object with a `"data"` key, or a string containing `data`; the failure reasons follow the same evaluation |
| `Classify.OrdersOutcome` | load_tests/locust_test.py:206-213 | orders succeed iff the status is 200 and the body decodes |
| `Classify.NotFoundTolerant` | load_tests/locust_test.py:128-133 | product detail, cart, addresses and tracking succeed iff the status is 200 or 404, and otherwise fail with `Status code: <n>` |
| `Classify.SignUpOutcome` | load_tests/locust_test.py:247-252 | signup succeeds iff the status is 200, 201 or 409, and otherwise fails with `Status code: <n>` |
| `Classify.TaskOutcome` | load_tests/locust_test.py:68-267 | for every task, a status outside its allow-list is a `Status code: <n>` failure and an admitted status never is; tasks that ignore the body succeed exactly on their allow-list; tasks that read the body fail on an undecodable one |
| `Session.LookupToken` | load_tests/locust_test.py:60 | the lookup raises iff the document or its `"data"` entry is not an object; otherwise a truthy nested token wins, and the top-level `"token"` (`None` if absent) is taken in its place |
| `Session.LookupTokenTruthy` | load_tests/locust_test.py:60-61 | the looked-up token is truthy iff one of the two places holds a truthy value, and it is then one of those two values |
| `Session.LookupTokenExamples` | load_tests/locust_test.py:57-66 | nested `abc` gives `abc`; top-level `xyz` gives `xyz`; `{}` gives `None` without raising; a falsy nested token falls back to the top-level one; a null `"data"` raises |
| `Session.FallbackProductId` | load_tests/locust_test.py:121 | the stand-in id is a truthy string beginning `product_` |
| `Session.FallbackProductIdInjective` | load_tests/locust_test.py:121 | different draws of `randint` give different stand-in ids |
| `Session.DeliveryAPIUser.constructor` | load_tests/locust_test.py:37 | a new user holds no token and no cached product, and keeps the client's headers |
| `Session.DeliveryAPIUser.Authenticate` | load_tests/locust_test.py:45-66 | state changes only on 200/201 with a decodable body whose lookup does not raise; then the looked-up value becomes the token, falsy or not, and `Authorization: Bearer <token>` is set only for a truthy token; otherwise token and headers are unchanged |
| `Session.DeliveryAPIUser.OnStart` | load_tests/locust_test.py:39-43 | a user authenticates iff its draw is below 0.3, and otherwise keeps its token and headers |
| `Session.DeliveryAPIUser.BrowseProducts` | load_tests/locust_test.py:88-115 | reports as the product listing; `productId` changes only on a successful report from a well-shaped listing, and it then becomes the first product's id |
| `Session.DeliveryAPIUser.ViewProductDetail` | load_tests/locust_test.py:117-133 | the requested id is always truthy: the cached id when truthy, else `product_<k>`; success iff the status is 200 or 404 |
| `Session.DeliveryAPIUser.ViewCart` | load_tests/locust_test.py:179-193 | no request and no report iff the token is falsy; otherwise success iff the status is 200 or 404 |
| `Session.DeliveryAPIUser.ViewOrders` | load_tests/locust_test.py:195-213 | no request and no report iff the token is falsy; otherwise success iff the status is 200 and the body decodes |
| `Session.DeliveryAPIUser.ViewAddresses` | load_tests/locust_test.py:215-229 | no request and no report iff the token is falsy; otherwise success iff the status is 200 or 404 |
| `LoadShape.Step` | load_tests/locust_test.py:288-298 | a poll stays on the stage iff elapsed is below that stage's own duration, and otherwise advances by exactly one; the index never passes the table's length; it returns `None` iff the new index is past the table, and otherwise the new stage's `(users, spawn_rate)` |
| `LoadShape.Run` | load_tests/locust_test.py:284-298 | over a run of polls the index never decreases, never passes the table, and rises by at most one per poll; `None` is returned at most once, as the last answer, exactly when the run reaches the end |
| `LoadShape.RunHolds` | load_tests/locust_test.py:291-292 | while every poll falls before the current stage's duration, the index stays put and each answer is that stage's target |
| `LoadShape.RunReachesEnd` | load_tests/locust_test.py:294-296 | once every poll falls after the longest stage duration, the polls reach the end of the table, one per remaining stage, and the last answer is the stop `None` |
| `LoadShape.CustomLoadShape.constructor` | load_tests/locust_test.py:273-282 | the stage table is the five-stage ramp, the index is 0 and no start time is set |
| `LoadShape.CustomLoadShape.Tick` | load_tests/locust_test.py:284-298 | the start time is set by the first poll only and never changed after; `stages` cannot change; the new index and the answer are those of `Step` for the elapsed time since the first poll; the index must be inside the table on entry |
| `LoadShape.TwoStageExample` | load_tests/locust_test.py:284-298 | with stages `(30,10,2),(60,10,2)`, polls at 0, 10, 31 and 61 s return `(10,2)` three times and then `None` |
| `LoadShape.RunAppend` | load_tests/locust_test.py:284-298 | polling at `a` and then at `b` gives the same final index and answers as polling at `a + b` |
| `LoadShape.PollUntilStop` | load_tests/locust_test.py:284-298 | polling a fresh `CustomLoadShape` through `Tick` at the times `polls`, until it answers `None` or the polls run out, gives exactly the answers and final index of `Run` started at index 0 with the start time fixed at the first poll |
| `LoadShape.RampPolledEverySecond` | load_tests/locust_test.py:274-298 | as written, the five-stage ramp polled once a second from 0 s holds `(10,2)` up to 59 s, answers `(20,2)`, `(20,2)` and `(0,2)` at 60, 61 and 62 s, and returns the stop `None` at 63 s |
| `LoadShape.RampEndsEarly` | load_tests/locust_test.py:274-298 | as written, the five-stage ramp polled at 60 to 63 s passes through its last three stages in one poll each and stops at 63 s; the table adds up to 210 s |
| `LoadShape.IntendedTargetInStage` | load_tests/locust_test.py:274-280 | under the intended reading, stage `i` is in force from the end of the stages before it until its own duration has passed |
| `LoadShape.IntendedTargetStops` | load_tests/locust_test.py:274-280 | under the intended reading, the test stops once the summed durations have passed |

## Left out

- HTTP traffic. `self.client.get/post` and the `catch_response` context manager are not modelled. Each task receives its response as a status code and a decoded body. The request bodies and query parameters are not modelled either.
- The Locust engine is not modelled: `HttpUser`, the `@task` weights (10, 8, 6, 7, 5, 3, 2, 2, 1, 1), weighted selection, `between(1, 3)` wait times, spawning and statistics. The selection frequencies are probabilistic claims.
- Randomness is not modelled. The draws are parameters instead: the `random.random()` roll in `on_start` and the `randint(1, 100)` product number. The choice of credentials, search term and category, the random signup data and the tracking order number do not influence any outcome, so they are left out.
- The stateless tasks have no methods of their own. `browse_categories`, `search_products`, `view_best_sellers`, `signup` and `track_delivery` are modelled only as their classifiers (`ListingOutcome`, `SearchOutcome`, `SignUpOutcome`, `NotFoundTolerant`).
- Real JSON decoding is not modelled. The body is already decoded or is `ParseError`. Numbers are reals, so the difference between Python's `int` and `float` is not represented.
- Session.DeliveryAPIUser.Authenticate: the header holds `Bearer(token)`, which stands for the text `"Bearer " + str(token)`. Python's `str()` of a token that is not a string is not spelled out. Header names are compared case-sensitively, whereas requests compares them case-insensitively.
- LoadShape.CustomLoadShape.Tick: `time.time()` is its `now` argument, and the two clock readings of one call are taken as the same instant, so the first poll sees zero elapsed time rather than a few microseconds. `time.time()` returns a float, while `now` and the elapsed time are exact reals, so float rounding is not modelled.
- `CustomLoadShape` does not subclass Locust's `LoadTestShape` (load_tests/locust_test.py:7, 271), so as written no runner polls it. The model describes `tick` as it behaves when called, as it would be once the class is installed as a `LoadTestShape`.
- Polling `tick` again after it returned `None` raises `IndexError` in Python. In the model, `Tick` requires the index to be inside the table instead, and `Run` stops at the stop answer.
- `load_tests/k6_test.js` is not part of this model. It is a linear k6 script of requests and metrics, and its token lookup `body.data?.token || body.token || null` follows a similar rule to `LookupToken`. It is not the same rule: it does not raise on a null or string `data` but falls back to `body.token`, and JavaScript truthiness differs (`[]` and `{}` are truthy).

## Findings

| source | as written | input that shows it | evidently intended | confidence | as-written member | corrected member |
|---|---|---|---|---|---|---|
| load_tests/locust_test.py:285-291 | `start_time` is set once, and the elapsed time since the first poll is compared with the current stage's own duration | the five-stage table, polled once a second from 0 s with the class installed as a `LoadTestShape`: at 60 s it enters the 20-user stage, and at 61, 62 and 63 s it passes stage 3, stage 4 and the end; the test stops at 63 s although the stages add up to 210 s | each stage lasts its own duration after the previous one ends, so the ramp runs 210 s | medium (not executed) | `LoadShape.RampPolledEverySecond` | `LoadShape.IntendedTargetInStage` |

`CustomLoadShape.Tick` keeps the behaviour as written, because that is what the script's `tick` does whenever it is polled. `IntendedTarget`, with its two lemmas, gives the intended schedule beside it.
