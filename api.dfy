/**
 * The resource clients: the requests each operation issues, in order, with
 * their endpoints, query maps and bodies.  A GET's answer is not modelled;
 * where an operation reads the fetched order, the caller supplies it.
 */
module Api {
  import opened Values
  import opened Filter
  import opened Transport

  const OrdersPath: string := "/orders"
  const CreateOrderPath: string := "/orders/createorder"
  const AddTagPath: string := "/orders/addtag"
  const HoldUntilPath: string := "/orders/holduntil"
  const CustomersPath: string := "/customers"
  const ListTagsPath: string := "/accounts/listtags"

  /** The message of the assertion `list_with_filter` raises on any other filter type. */
  const FilterTypeMessage: string := "filter type must be ShipStationOrderFilter"

  /** The endpoint of one order, `/orders/{order_id}`. */
  function OrderPath(orderId: int): string
  {
    "/orders/" + Decimal(orderId)
  }

  /** The endpoint of one customer, `/customers/{customer_id}`. */
  function CustomerPath(customerId: int): string
  {
    "/customers/" + Decimal(customerId)
  }

  /** Different order ids address different orders. */
  lemma OrderPathInjective(a: int, b: int)
    ensures OrderPath(a) == OrderPath(b) ==> a == b
  {
    if OrderPath(a) == OrderPath(b) {
      assert Decimal(a) == OrderPath(a)[8..] == OrderPath(b)[8..] == Decimal(b);
      DecimalInjective(a, b);
    }
  }

  /** Different customer ids address different customers. */
  lemma CustomerPathInjective(a: int, b: int)
    ensures CustomerPath(a) == CustomerPath(b) ==> a == b
  {
    if CustomerPath(a) == CustomerPath(b) {
      assert Decimal(a) == CustomerPath(a)[11..] == CustomerPath(b)[11..] == Decimal(b);
      DecimalInjective(a, b);
    }
  }

  /** Fetching one order never addresses the listing or one of the fixed mutation endpoints. */
  lemma OrderPathDistinct(orderId: int)
    ensures OrderPath(orderId) != OrdersPath
    ensures OrderPath(orderId) != CreateOrderPath
    ensures OrderPath(orderId) != AddTagPath
    ensures OrderPath(orderId) != HoldUntilPath
  {
    DecimalShape(orderId);
    var p := OrderPath(orderId);
    assert p[8] == Decimal(orderId)[0];
    assert IsDigit(p[8]) || p[8] == '-';
  }

  /**
   * The value handed to `list_with_filter`.  Its guard compares the exact
   * type, so only an order filter passes; `OtherArg` stands for any other
   * value, a subclass instance included.
   */
  datatype FilterArg = OrderFilterArg(order: OrderFilter) | ProductFilterArg(product: ProductFilter) | OtherArg

  /** The new `internalNotes`: the note, space-joined in front of the old notes as an f-string prints them. */
  function NewNote(note: string, previous: Json): string
  {
    " " + note + " " + PyStr(previous)
  }

  /** The old notes survive at the end of the new ones, behind a space-joined copy of the note. */
  lemma NewNotePrepends(note: string, previous: Json)
    ensures |NewNote(note, previous)| == |note| + 2 + |PyStr(previous)|
    ensures NewNote(note, previous)[..|note| + 2] == " " + note + " "
    ensures NewNote(note, previous)[|note| + 2..] == PyStr(previous)
  {
  }

  lemma NewNoteExample()
    ensures NewNote("URGENT", JStr("existing")) == " URGENT existing"
  {
  }

  /**
   * The local part of `add_note`: read the fetched order's `internalNotes`
   * (a missing key raises `KeyError`) and `update` the order with the new
   * notes.  Every other entry is kept as fetched.
   */
  method MergeNote(order: Body, note: string) returns (r: Result<Body>)
    ensures r.Fail? <==> "internalNotes" !in order
    ensures r.Fail? ==> r.error == KeyError("internalNotes")
    ensures r.Ok? ==> r.value.Keys == order.Keys
    ensures r.Ok? ==> r.value["internalNotes"] == JStr(NewNote(note, order["internalNotes"]))
    ensures r.Ok? ==> forall k :: k in order && k != "internalNotes" ==> r.value[k] == order[k]
  {
    if "internalNotes" !in order {
      return Fail(KeyError("internalNotes"));
    }
    var orderData := order;
    var newNote := map["internalNotes" := JStr(NewNote(note, orderData["internalNotes"]))];
    orderData := orderData + newNote;
    r := Ok(orderData);
  }

  /**
   * What the customer listing's query map must be: exactly one entry per
   * argument that is not `None`, under the argument's own name, holding the
   * argument.
   */
  ghost predicate IsCustomerQuery(
    params: Params,
    stateCode: Option<string>, countryCode: Option<string>, marketplaceId: Option<int>, tagId: Option<int>,
    sortBy: Option<string>, sortDir: Option<string>, page: Option<int>, pageSize: Option<int>)
  {
    && params.Keys <= {"stateCode", "countryCode", "marketplaceId", "tagId", "sortBy", "sortDir", "page", "pageSize"}
    && ("stateCode" in params <==> stateCode.Some?)
    && ("countryCode" in params <==> countryCode.Some?)
    && ("marketplaceId" in params <==> marketplaceId.Some?)
    && ("tagId" in params <==> tagId.Some?)
    && ("sortBy" in params <==> sortBy.Some?)
    && ("sortDir" in params <==> sortDir.Some?)
    && ("page" in params <==> page.Some?)
    && ("pageSize" in params <==> pageSize.Some?)
    && (stateCode.Some? ==> params["stateCode"] == Str(stateCode.value))
    && (countryCode.Some? ==> params["countryCode"] == Str(countryCode.value))
    && (marketplaceId.Some? ==> params["marketplaceId"] == Int(marketplaceId.value))
    && (tagId.Some? ==> params["tagId"] == Int(tagId.value))
    && (sortBy.Some? ==> params["sortBy"] == Str(sortBy.value))
    && (sortDir.Some? ==> params["sortDir"] == Str(sortDir.value))
    && (page.Some? ==> params["page"] == Int(page.value))
    && (pageSize.Some? ==> params["pageSize"] == Int(pageSize.value))
  }

  /** Only one map meets that description: the query map is determined by the arguments. */
  lemma CustomerQueryUnique(
    p: Params, q: Params,
    stateCode: Option<string>, countryCode: Option<string>, marketplaceId: Option<int>, tagId: Option<int>,
    sortBy: Option<string>, sortDir: Option<string>, page: Option<int>, pageSize: Option<int>)
    requires IsCustomerQuery(p, stateCode, countryCode, marketplaceId, tagId, sortBy, sortDir, page, pageSize)
    requires IsCustomerQuery(q, stateCode, countryCode, marketplaceId, tagId, sortBy, sortDir, page, pageSize)
    ensures p == q
  {
  }

  /** A zero page and an empty sort key are sent, not skipped as a filter builder would skip them. */
  lemma CustomerQueryKeepsFalsy(p: Params)
    requires IsCustomerQuery(p, None, None, None, None, None, Some(""), Some(0), None)
    ensures p == map["sortDir" := Str(""), "page" := Int(0)]
  {
  }

  /**
   * The query map of the customer listing: one entry per argument that is
   * not `None`, under the argument's own name.  Unlike the filter builders,
   * `0` and `""` are kept.
   */
  method CustomerQuery(
    stateCode: Option<string>, countryCode: Option<string>, marketplaceId: Option<int>, tagId: Option<int>,
    sortBy: Option<string>, sortDir: Option<string>, page: Option<int>, pageSize: Option<int>)
    returns (params: Params)
    ensures IsCustomerQuery(params, stateCode, countryCode, marketplaceId, tagId, sortBy, sortDir, page, pageSize)
  {
    params := map[];
    if stateCode.Some? {
      params := params["stateCode" := Str(stateCode.value)];
    }
    if countryCode.Some? {
      params := params["countryCode" := Str(countryCode.value)];
    }
    if marketplaceId.Some? {
      params := params["marketplaceId" := Int(marketplaceId.value)];
    }
    if tagId.Some? {
      params := params["tagId" := Int(tagId.value)];
    }
    if sortBy.Some? {
      params := params["sortBy" := Str(sortBy.value)];
    }
    if sortDir.Some? {
      params := params["sortDir" := Str(sortDir.value)];
    }
    if page.Some? {
      params := params["page" := Int(page.value)];
    }
    if pageSize.Some? {
      params := params["pageSize" := Int(pageSize.value)];
    }
  }

  class Tags {
    const request: Request

    constructor (request: Request)
      ensures this.request == request
    {
      this.request := request;
    }

    method List()
      modifies request
      ensures request.log == old(request.log) + [GetCall(Url(request.baseUrl, ListTagsPath), None)]
    {
      request.Get(ListTagsPath);
    }
  }

  class Orders {
    const request: Request

    constructor (request: Request)
      ensures this.request == request
    {
      this.request := request;
    }

    method GetById(orderId: int)
      modifies request
      ensures request.log == old(request.log) + [GetCall(Url(request.baseUrl, OrderPath(orderId)), None)]
    {
      request.Get(OrderPath(orderId));
    }

    method List()
      modifies request
      ensures request.log == old(request.log) + [GetCall(Url(request.baseUrl, OrdersPath), None)]
    {
      request.Get(OrdersPath);
    }

    /**
     * Fails with nothing issued unless handed an order filter; otherwise one
     * GET on the order listing whose query map is the filter's own map.
     */
    method ListWithFilter(orderFilter: FilterArg) returns (r: Outcome)
      modifies request
      ensures r.Done? <==> orderFilter.OrderFilterArg?
      ensures r.Raised? ==> r.error == AssertionError(FilterTypeMessage) && request.log == old(request.log)
      ensures r.Done? ==>
        request.log == old(request.log) + [GetCall(Url(request.baseUrl, OrdersPath), Some(orderFilter.order.params))]
    {
      if !orderFilter.OrderFilterArg? {
        return Raised(AssertionError(FilterTypeMessage));
      }
      var params := orderFilter.order.GetFilters();
      request.Get(OrdersPath, Some(params));
      r := Done;
    }

    method Tag(orderId: int, tagId: int)
      modifies request
      ensures request.log == old(request.log)
        + [PostCall(Url(request.baseUrl, AddTagPath), map["orderId" := JInt(orderId), "tagId" := JInt(tagId)])]
    {
      request.Post(AddTagPath, map["orderId" := JInt(orderId), "tagId" := JInt(tagId)]);
    }

    method Hold(orderId: int, date: string)
      modifies request
      ensures request.log == old(request.log)
        + [PostCall(Url(request.baseUrl, HoldUntilPath), map["orderId" := JInt(orderId), "holdUntilDate" := JStr(date)])]
    {
      request.Post(HoldUntilPath, map["orderId" := JInt(orderId), "holdUntilDate" := JStr(date)]);
    }

    /**
     * Read-modify-write of the notes: fetch the order (`fetched` is the order
     * the service answers with), then post the whole order back with only
     * `internalNotes` replaced.  Without an `internalNotes` entry it raises
     * after the GET and posts nothing.
     */
    method AddNote(note: string, orderId: int, fetched: Body) returns (r: Outcome)
      modifies request
      ensures r.Done? <==> "internalNotes" in fetched
      ensures r.Raised? ==> r.error == KeyError("internalNotes")
      ensures r.Raised? ==> request.log == old(request.log) + [GetCall(Url(request.baseUrl, OrderPath(orderId)), None)]
      ensures r.Done? ==>
        request.log == old(request.log)
          + [GetCall(Url(request.baseUrl, OrderPath(orderId)), None),
             PostCall(Url(request.baseUrl, CreateOrderPath),
                      fetched["internalNotes" := JStr(NewNote(note, fetched["internalNotes"]))])]
    {
      GetById(orderId);
      var merged := MergeNote(fetched, note);
      if merged.Fail? {
        return Raised(merged.error);
      }
      assert merged.value == fetched["internalNotes" := JStr(NewNote(note, fetched["internalNotes"]))];
      request.Post(CreateOrderPath, merged.value);
      r := Done;
    }

    /**
     * As written, the new entry reads the local `sat_delivery` before it is
     * bound, so the call always raises after its GET and never posts.
     */
    method ActivateSaturdayDelivery(orderId: int) returns (r: Outcome)
      modifies request
      ensures r == Raised(UnboundLocalError("sat_delivery"))
      ensures request.log == old(request.log) + [GetCall(Url(request.baseUrl, OrderPath(orderId)), None)]
    {
      GetById(orderId);
      r := Raised(UnboundLocalError("sat_delivery"));
    }
  }

  class Shipments {
    const request: Request

    constructor (request: Request)
      ensures this.request == request
    {
      this.request := request;
    }

    /** Lists on the order listing endpoint, the same one `Orders.List` uses. */
    method List()
      modifies request
      ensures request.log == old(request.log) + [GetCall(Url(request.baseUrl, OrdersPath), None)]
    {
      request.Get(OrdersPath);
    }
  }

  class Customers {
    const request: Request

    constructor (request: Request)
      ensures this.request == request
    {
      this.request := request;
    }

    /** One GET on the customer listing, with the query map `CustomerQuery` builds. */
    method List(
      stateCode: Option<string> := None, countryCode: Option<string> := None,
      marketplaceId: Option<int> := None, tagId: Option<int> := None,
      sortBy: Option<string> := None, sortDir: Option<string> := None,
      page: Option<int> := None, pageSize: Option<int> := None)
      modifies request
      ensures |request.log| == |old(request.log)| + 1
      ensures request.log[..|old(request.log)|] == old(request.log)
      ensures var call := request.log[|old(request.log)|];
        && call.GetCall? && call.url == Url(request.baseUrl, CustomersPath) && call.params.Some?
        && IsCustomerQuery(call.params.value, stateCode, countryCode, marketplaceId, tagId, sortBy, sortDir, page, pageSize)
    {
      var params := CustomerQuery(stateCode, countryCode, marketplaceId, tagId, sortBy, sortDir, page, pageSize);
      request.Get(CustomersPath, Some(params));
    }

    method GetById(customerId: int)
      modifies request
      ensures request.log == old(request.log) + [GetCall(Url(request.baseUrl, CustomerPath(customerId)), None)]
    {
      request.Get(CustomerPath(customerId));
    }
  }

  /** The top-level client: four resource clients sharing one request handler. */
  class Client {
    /**
     * The handler the constructor creates and hands to the four resource
     * clients.  The Python client keeps it only in a local variable; it is a
     * ghost here, present only to state that the handler is shared.
     */
    ghost const request: Request
    const tags: Tags
    const orders: Orders
    const shipments: Shipments
    const customers: Customers

    constructor (baseUrl: string := DefaultBaseUrl)
      ensures fresh(request) && request.baseUrl == baseUrl && request.log == []
      ensures tags.request == request && orders.request == request
      ensures shipments.request == request && customers.request == request
    {
      var handler := new Request(baseUrl);
      request := handler;
      tags := new Tags(handler);
      orders := new Orders(handler);
      shipments := new Shipments(handler);
      customers := new Customers(handler);
    }
  }
}
