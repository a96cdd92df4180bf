# ShipStation API wrapper: filter builders and request shaping

This project models the core of a small Python client for the ShipStation
order-management service:

- the two query-filter builders (`ShipStationOrderFilter`,
  `ShipStationProductFilter`), each a class that owns a parameter map and
  writes one or two keys per `add_*` call, but only for a truthy argument;
- the resource clients (`ShipStationOrders`, `ShipStationCustomers`,
  `ShipStationTags`, `ShipStationShipments`) and the request handler
  `ShipStationRequest`. The transport is modelled as a log of issued
  requests. Each entry is a GET with its query map, or a POST with its JSON
  body, addressed to `base_url + endpoint`.

Files:

- `values.dfy` (module `Values`): optional arguments, Python truthiness,
  query values (`Str`/`Int`), decoded JSON values, the exceptions the
  wrapper raises, and `str()` of an integer, with its parse round trip.
- `filter.dfy` (module `Filter`): the conditional write `Put` and its
  laws (falsy no-op, frame, idempotence, last write wins). It also holds the
  date keys, the five-status check, and the two builder classes. Their
  `Valid()` invariant says that every stored value is truthy, that a stored
  status is one of the five, and that order numbers and tag ids are
  integers.
- `transport.dfy` (module `Transport`): URL formation and the request log.
- `api.dfy` (module `Api`): every resource-client operation, stated as
  what it appends to the log. It also holds the customer query map and the
  notes merge of `add_note`.

Three behaviours of the wrapper are modelled as it stands:

- `activate_saturday_delivery` reads the local `sat_delivery` before binding
  it (api.py:64). It therefore always raises `UnboundLocalError` after its
  GET and never posts.
- `add_note` checks nothing before its GET. A fetched order without
  `internalNotes` raises `KeyError` after the GET, and nothing is posted.
- The wrapper has no product client and issues no PUT. The product filter is
  only ever a value that `list_with_filter` rejects.

## Model

| member | source | states |
|---|---|---|
| `Values.ParseNatDigits` | shipstation_api_wrapper/api.py:38 | the digits an f-string prints for a natural id parse back to that id |
| `Values.DecimalInjective` | shipstation_api_wrapper/api.py:38 | two different integer ids never print as the same text |
| `Values.PyStr` | shipstation_api_wrapper/api.py:57 | the old notes print as Python prints them: `None` and the booleans as `None`/`True`/`False`, a string as it is, an integer as decimal text that reads back to the same number |
| `Values.DecimalShape` | shipstation_api_wrapper/api.py:38 | an integer prints as a non-empty run of digits, led by a minus sign exactly when it is negative, so a negative prints at least one digit after the sign |
| `Filter.PutFalsy` | shipstation_api_wrapper/filter.py:7-44 | an absent, `None`, `""` or `0` argument leaves the parameter map unchanged |
| `Filter.PutTruthy` | shipstation_api_wrapper/filter.py:7-44 | a truthy argument sets its key to the argument, adds at most that one key and keeps every other entry |
| `Filter.PutFrame` | shipstation_api_wrapper/filter.py:7-44 | a write never adds, removes or changes any key other than the one it names |
| `Filter.PutIdempotent` | shipstation_api_wrapper/filter.py:7-44 | making the same call twice gives the same map as making it once |
| `Filter.PutOverwrite` | shipstation_api_wrapper/filter.py:7-44 | a later truthy write to the same key wins, and the key set does not grow past the first truthy write |
| `Filter.PutCommutes` | shipstation_api_wrapper/filter.py:15-19 | writes to two different keys can be done in either order |
| `Filter.DateKeysDistinct` | shipstation_api_wrapper/filter.py:15-19 | for any prefix, `{t}DateStart` and `{t}DateEnd` differ from each other and from the five other order-filter keys |
| `Filter.StatusesTruthy` | shipstation_api_wrapper/filter.py:22-25 | each of the five accepted statuses is non-empty, so a status that passes the check is always written |
| `Filter.DateWriteEffect` | shipstation_api_wrapper/filter.py:15-19 | the start key is set to the start if and only if the start is truthy and otherwise keeps its presence and value, the end key likewise, two falsy bounds leave the map unchanged, and no other key changes |
| `Filter.DateWriteIdempotent` | shipstation_api_wrapper/filter.py:15-19 | repeating a date-range call with the same arguments changes nothing more |
| `Filter.DateWriteDefaultPrefix` | shipstation_api_wrapper/filter.py:15-19 | with the default `create` prefix, a fresh builder gets exactly `createDateStart` and `createDateEnd` |
| `Filter.DateWriteShipExample` | shipstation_api_wrapper/filter.py:15-19 | a `ship` range 2024-01-01 to 2024-01-31 on a fresh builder gives exactly `shipDateStart` and `shipDateEnd` |
| `Filter.OrderFilter.constructor` | shipstation_api_wrapper/filter.py:4-5 | a new order filter has an empty parameter map and satisfies its invariant |
| `Filter.OrderFilter.AddCustomerNameFilter` | shipstation_api_wrapper/filter.py:7-9 | the map becomes `Put(old, "customerName", arg)`, and the invariant is kept |
| `Filter.OrderFilter.AddItemKeywordFilter` | shipstation_api_wrapper/filter.py:11-13 | the map becomes `Put(old, "itemKeyword", arg)`, and the invariant is kept |
| `Filter.OrderFilter.AddDateFilter` | shipstation_api_wrapper/filter.py:15-19 | the map becomes the start write followed by the end write on the caller's prefix (default `create`), and the invariant is kept |
| `Filter.OrderFilter.AddOrderStatusFilter` | shipstation_api_wrapper/filter.py:21-25 | succeeds if and only if the status is one of the five; otherwise (`None` included) raises the assertion with its message and leaves the map unchanged; on success `orderStatus` holds the status |
| `Filter.OrderFilter.AddOrderNumber` | shipstation_api_wrapper/filter.py:27-29 | the map becomes `Put(old, "orderNumber", n)`, so `0` and `None` are never stored |
| `Filter.OrderFilter.AddTagFilter` | shipstation_api_wrapper/filter.py:31-33 | the map becomes `Put(old, "tagId", n)`, so `0` and `None` are never stored |
| `Filter.OrderFilter.GetFilters` | shipstation_api_wrapper/filter.py:35-36 | returns exactly the builder's current map, untransformed |
| `Filter.ProductFilter.constructor` | shipstation_api_wrapper/filter.py:39-40 | a new product filter has an empty parameter map |
| `Filter.ProductFilter.AddSkuFilter` | shipstation_api_wrapper/filter.py:42-44 | the map becomes `Put(old, "sku", arg)`, and every stored value stays truthy |
| `Filter.ProductFilter.GetFilters` | shipstation_api_wrapper/filter.py:46-47 | returns exactly the builder's current map, untransformed |
| `Transport.UrlSplits` | shipstation_api_wrapper/api.py:9-13 | a request URL is the base URL followed by the endpoint; both can be read back off it |
| `Transport.UrlInjective` | shipstation_api_wrapper/api.py:9-13 | on one base URL, different endpoints give different URLs |
| `Transport.UrlKeepsTrailingSlash` | shipstation_api_wrapper/api.py:4-9 | the concatenation adds or removes no slash: a base ending in `/` gives `//orders` |
| `Transport.Request.constructor` | shipstation_api_wrapper/api.py:4-6 | the handler keeps the given base URL (default `https://ssapi.shipstation.com`) and has issued nothing |
| `Transport.Request.Get` | shipstation_api_wrapper/api.py:8-11 | appends exactly one GET to `base_url + endpoint`, with the given query map or none |
| `Transport.Request.Post` | shipstation_api_wrapper/api.py:12-15 | appends exactly one POST to `base_url + endpoint`, with the given body |
| `Api.OrderPathInjective` | shipstation_api_wrapper/api.py:37-38 | different order ids address different order endpoints |
| `Api.CustomerPathInjective` | shipstation_api_wrapper/api.py:100-101 | different customer ids address different customer endpoints |
| `Api.OrderPathDistinct` | shipstation_api_wrapper/api.py:37-59 | fetching one order never addresses `/orders`, `/orders/createorder`, `/orders/addtag` or `/orders/holduntil` |
| `Api.NewNotePrepends` | shipstation_api_wrapper/api.py:57 | the new notes are a space, the note, a space, then the old notes as printed: the old notes are kept, not discarded |
| `Api.NewNoteExample` | shipstation_api_wrapper/api.py:57 | the note `URGENT` on the notes `existing` gives ` URGENT existing` |
| `Api.MergeNote` | shipstation_api_wrapper/api.py:56-58 | raises `KeyError` if and only if the order has no `internalNotes`; otherwise keeps every key and every other value, and replaces only `internalNotes` |
| `Api.CustomerQueryUnique` | shipstation_api_wrapper/api.py:81-97 | the customer query map is determined by the arguments |
| `Api.CustomerQueryKeepsFalsy` | shipstation_api_wrapper/api.py:81-97 | `0` and `""` arguments are sent, unlike in the filter builders |
| `Api.CustomerQuery` | shipstation_api_wrapper/api.py:81-97 | the keys are exactly the names of the arguments that are not `None`, each mapped to its argument |
| `Api.Tags.List` | shipstation_api_wrapper/api.py:30-31 | one GET to `/accounts/listtags`, without a query map |
| `Api.Orders.GetById` | shipstation_api_wrapper/api.py:37-38 | one GET to `/orders/{id}`, without a query map |
| `Api.Orders.List` | shipstation_api_wrapper/api.py:40-41 | one GET to `/orders`, without a query map |
| `Api.Orders.ListWithFilter` | shipstation_api_wrapper/api.py:43-46 | succeeds if and only if given an order filter; otherwise raises the assertion and issues nothing; on success issues one GET to `/orders` whose query map is the filter's map |
| `Api.Orders.Tag` | shipstation_api_wrapper/api.py:48-49 | one POST of `{orderId, tagId}` to `/orders/addtag` |
| `Api.Orders.Hold` | shipstation_api_wrapper/api.py:51-52 | one POST of `{orderId, holdUntilDate}` to `/orders/holduntil` |
| `Api.Orders.AddNote` | shipstation_api_wrapper/api.py:54-59 | a GET to `/orders/{id}`, then, if the fetched order has `internalNotes`, a POST to `/orders/createorder` of the fetched order with only the notes replaced; otherwise `KeyError` and no POST |
| `Api.Orders.ActivateSaturdayDelivery` | shipstation_api_wrapper/api.py:61-66 | a GET to `/orders/{id}`, then always `UnboundLocalError` for `sat_delivery`, and no POST |
| `Api.Shipments.List` | shipstation_api_wrapper/api.py:72-73 | one GET to `/orders`, the same request as `Orders.List` |
| `Api.Customers.List` | shipstation_api_wrapper/api.py:79-98 | one GET to `/customers` whose query map meets the customer query description |
| `Api.Customers.GetById` | shipstation_api_wrapper/api.py:100-101 | one GET to `/customers/{id}`, without a query map |
| `Api.Tags.constructor` | shipstation_api_wrapper/api.py:27-28 | the tag client keeps the handler it is given |
| `Api.Orders.constructor` | shipstation_api_wrapper/api.py:34-35 | the order client keeps the handler it is given |
| `Api.Shipments.constructor` | shipstation_api_wrapper/api.py:69-70 | the shipment client keeps the handler it is given |
| `Api.Customers.constructor` | shipstation_api_wrapper/api.py:76-77 | the customer client keeps the handler it is given |
| `Api.Client.constructor` | shipstation_api_wrapper/api.py:17-24 | the four resource clients share one fresh request handler on the given base URL |

## Left out

- The HTTP calls themselves (`requests.get`, `requests.post`) and the response objects: a request is a log entry, and the operations return an outcome instead of a response.
- Decoding the response of `add_note` and `activate_saturday_delivery` (`.json()['orders'][0]`): the fetched order is an argument of `Orders.AddNote`, and the failures of that decoding are not modelled.
- Header construction in `ShipStationClient.__init__` (the API key and the `Authorization` header): `Api.Client.constructor` takes only the base URL.
- Python's `assert` is removed under `python -O`. The model keeps both guards, the status check and the filter-type check, always active.
- `Filter.OrderFilter.GetFilters` and `Filter.ProductFilter.GetFilters`: return the map as a value. Python returns the builder's own dict, so a caller that mutates the result also mutates the builder. This aliasing is not modelled.
- Key order: Python dicts keep insertion order, and `requests` sends the filter maps, the customer query map and the JSON body of `add_note` in that order. A Dafny `map` has no order, so the model says which keys are sent and with what values, not in which order.
- `Transport.Request`: the handler's `headers` (kept by `ShipStationRequest.__init__` and sent with every GET and POST) are dropped, so neither the handler nor a logged `Call` carries them.
- Argument types are fixed: ids and tag ids are `int`, dates and names are strings. Python accepts any value there, for example a string id interpolated into `/orders/{id}`.
- `Values.Decimal`: renders every integer. From Python 3.11, CPython raises `ValueError` when it converts an integer of more than 4300 digits to text (the `sys.get_int_max_str_digits()` limit), for example in `/orders/{order_id}`. That failure is not modelled.
- `Values.Json`: floats, lists and nested objects of a fetched order are opaque. Each carries only the text `str()` prints for it.
- `models/order.py` (the pydantic order schema and its validation) is not part of this model.
- Concurrency and last-write-wins at the remote service are outside the code.
