/**
 * The query-filter builders.  Each builder owns a parameter map; every
 * `add_*` method writes a key only when its argument is truthy, so a
 * missing argument, `None`, `""` or `0` leaves the map as it was.
 */
module Filter {
  import opened Values

  /** A query-parameter map, sent verbatim as the query string of a GET. */
  type Params = map<string, Value>

  /**
   * The conditional write every `add_*` method performs: `m[key] = x` when
   * `x` is truthy, nothing otherwise.
   */
  function Put(m: Params, key: string, x: Option<Value>): Params
  {
    if TruthyArg(x) then m[key := x.value] else m
  }

  /** A falsy argument leaves the map untouched. */
  lemma PutFalsy(m: Params, key: string, x: Option<Value>)
    requires !TruthyArg(x)
    ensures Put(m, key, x) == m
  {
  }

  /** A truthy argument sets exactly its key, to the argument, and keeps every other entry. */
  lemma PutTruthy(m: Params, key: string, x: Option<Value>)
    requires TruthyArg(x)
    ensures key in Put(m, key, x) && Put(m, key, x)[key] == x.value
    ensures Put(m, key, x).Keys == m.Keys + {key}
    ensures forall k :: k in m && k != key ==> Put(m, key, x)[k] == m[k]
  {
  }

  /** No key other than the one named changes, whatever the argument. */
  lemma PutFrame(m: Params, key: string, x: Option<Value>, k: string)
    requires k != key
    ensures k in Put(m, key, x) <==> k in m
    ensures k in m ==> Put(m, key, x)[k] == m[k]
  {
  }

  /** Writing the same argument twice is the same as writing it once. */
  lemma PutIdempotent(m: Params, key: string, x: Option<Value>)
    ensures Put(Put(m, key, x), key, x) == Put(m, key, x)
  {
  }

  /**
   * A second truthy write to the same key overwrites the first (last write
   * wins), and the key set does not grow past the first write.
   */
  lemma PutOverwrite(m: Params, key: string, x: Option<Value>, y: Option<Value>)
    requires TruthyArg(y)
    ensures Put(Put(m, key, x), key, y) == Put(m, key, y)
    ensures TruthyArg(x) ==> Put(Put(m, key, x), key, y).Keys == Put(m, key, x).Keys
  {
  }

  /** Writes to two different keys commute. */
  lemma PutCommutes(m: Params, a: string, x: Option<Value>, b: string, y: Option<Value>)
    requires a != b
    ensures Put(Put(m, a, x), b, y) == Put(Put(m, b, y), a, x)
  {
  }

  predicate EndsWith(s: string, suffix: string)
  {
    |suffix| <= |s| && s[|s| - |suffix|..] == suffix
  }

  lemma ConcatEndsWith(prefix: string, suffix: string)
    ensures EndsWith(prefix + suffix, suffix)
  {
    assert (prefix + suffix)[|prefix|..] == suffix;
  }

  /** The key `add_date_filter` writes for the start of a range on `dateType`. */
  function StartKey(dateType: string): string
  {
    dateType + "DateStart"
  }

  /** The key `add_date_filter` writes for the end of a range on `dateType`. */
  function EndKey(dateType: string): string
  {
    dateType + "DateEnd"
  }

  /**
   * Whatever prefix a caller supplies, the two date keys are distinct and
   * never coincide with the keys of the other order predicates.
   */
  lemma DateKeysDistinct(dateType: string)
    ensures StartKey(dateType) != EndKey(dateType)
    ensures StartKey(dateType) !in OtherOrderKeys
    ensures EndKey(dateType) !in OtherOrderKeys
  {
    ConcatEndsWith(dateType, "DateStart");
    ConcatEndsWith(dateType, "DateEnd");
    var s, e := StartKey(dateType), EndKey(dateType);
    assert s[|s| - 1] == 't' && e[|e| - 1] == 'd';
    assert e[|e| - 2] == 'n';
    forall k | k in OtherOrderKeys
      ensures s != k && e != k
    {
      assert k[|k| - 2..] in {"me", "rd", "us", "er", "Id"};
    }
  }

  /** The order-filter keys that do not depend on a caller-supplied prefix. */
  const OtherOrderKeys: set<string> := {"customerName", "itemKeyword", "orderStatus", "orderNumber", "tagId"}

  /** The five order statuses `add_order_status_filter` accepts. */
  const Statuses: seq<string> := ["awaiting_payment", "awaiting_shipment", "shipped", "on_hold", "cancelled"]

  /** The message of the assertion `add_order_status_filter` raises, with the list as Python prints it. */
  const StatusMessage: string :=
    "Status Must be one of ['awaiting_payment', 'awaiting_shipment', 'shipped', 'on_hold', 'cancelled']"

  /** Every accepted status is truthy, so a status that passes the check is always written. */
  lemma StatusesTruthy(status: string)
    requires status in Statuses
    ensures TruthyArg(StrArg(Some(status)))
  {
  }

  /** The builder for the order listing's query parameters. */
  class OrderFilter {
    var params: Params

    /**
     * What the builder keeps true of its map: every stored value is truthy,
     * a stored status is one of the five, and order numbers and tag ids are
     * integers.
     */
    ghost predicate Valid()
      reads this
    {
      && (forall k :: k in params ==> Truthy(params[k]))
      && ("orderStatus" in params ==> params["orderStatus"].Str? && params["orderStatus"].s in Statuses)
      && ("orderNumber" in params ==> params["orderNumber"].Int?)
      && ("tagId" in params ==> params["tagId"].Int?)
    }

    constructor ()
      ensures Valid() && params == map[]
    {
      params := map[];
    }

    method AddCustomerNameFilter(customerName: Option<string> := None)
      requires Valid()
      modifies this
      ensures Valid()
      ensures params == Put(old(params), "customerName", StrArg(customerName))
    {
      params := Put(params, "customerName", StrArg(customerName));
    }

    method AddItemKeywordFilter(itemKeyword: Option<string> := None)
      requires Valid()
      modifies this
      ensures Valid()
      ensures params == Put(old(params), "itemKeyword", StrArg(itemKeyword))
    {
      params := Put(params, "itemKeyword", StrArg(itemKeyword));
    }

    /** Writes `{dateType}DateStart` and `{dateType}DateEnd`, each only when its bound is truthy. */
    method AddDateFilter(startDate: Option<string> := None, endDate: Option<string> := None, dateType: string := "create")
      requires Valid()
      modifies this
      ensures Valid()
      ensures params == DateWrite(old(params), startDate, endDate, dateType)
    {
      DateKeysDistinct(dateType);
      params := Put(params, StartKey(dateType), StrArg(startDate));
      params := Put(params, EndKey(dateType), StrArg(endDate));
    }

    /** Fails, before any write, unless the status is one of the five; `None` fails too. */
    method AddOrderStatusFilter(orderStatus: Option<string> := None) returns (r: Outcome)
      requires Valid()
      modifies this
      ensures Valid()
      ensures r.Done? <==> orderStatus.Some? && orderStatus.value in Statuses
      ensures r.Raised? ==> r.error == AssertionError(StatusMessage) && params == old(params)
      ensures r.Done? ==> params == old(params)["orderStatus" := Str(orderStatus.value)]
    {
      if !(orderStatus.Some? && orderStatus.value in Statuses) {
        return Raised(AssertionError(StatusMessage));
      }
      StatusesTruthy(orderStatus.value);
      params := Put(params, "orderStatus", StrArg(orderStatus));
      r := Done;
    }

    method AddOrderNumber(orderNumber: Option<int>)
      requires Valid()
      modifies this
      ensures Valid()
      ensures params == Put(old(params), "orderNumber", IntArg(orderNumber))
    {
      params := Put(params, "orderNumber", IntArg(orderNumber));
    }

    method AddTagFilter(tagId: Option<int>)
      requires Valid()
      modifies this
      ensures Valid()
      ensures params == Put(old(params), "tagId", IntArg(tagId))
    {
      params := Put(params, "tagId", IntArg(tagId));
    }

    /** The builder's own map, exactly as accumulated. */
    method GetFilters() returns (m: Params)
      ensures m == params
    {
      m := params;
    }
  }

  /** The builder for the product listing's query parameters. */
  class ProductFilter {
    var params: Params

    /** Every stored value is truthy. */
    ghost predicate Valid()
      reads this
    {
      forall k :: k in params ==> Truthy(params[k])
    }

    constructor ()
      ensures Valid() && params == map[]
    {
      params := map[];
    }

    method AddSkuFilter(sku: Option<string> := None)
      requires Valid()
      modifies this
      ensures Valid()
      ensures params == Put(old(params), "sku", StrArg(sku))
    {
      params := Put(params, "sku", StrArg(sku));
    }

    /** The builder's own map, exactly as accumulated. */
    method GetFilters() returns (m: Params)
      ensures m == params
    {
      m := params;
    }
  }

  /** The three-argument date write, as a function of the map before it. */
  function DateWrite(m: Params, startDate: Option<string>, endDate: Option<string>, dateType: string): Params
  {
    Put(Put(m, StartKey(dateType), StrArg(startDate)), EndKey(dateType), StrArg(endDate))
  }

  /**
   * The date write sets the start key exactly when the start is truthy and
   * the end key exactly when the end is truthy; nothing else changes.
   */
  lemma DateWriteEffect(m: Params, startDate: Option<string>, endDate: Option<string>, dateType: string)
    ensures TruthyArg(StrArg(startDate)) ==>
      StartKey(dateType) in DateWrite(m, startDate, endDate, dateType)
      && DateWrite(m, startDate, endDate, dateType)[StartKey(dateType)] == Str(startDate.value)
    ensures !TruthyArg(StrArg(startDate)) ==>
      (StartKey(dateType) in DateWrite(m, startDate, endDate, dateType) <==> StartKey(dateType) in m)
      && (StartKey(dateType) in m ==> DateWrite(m, startDate, endDate, dateType)[StartKey(dateType)] == m[StartKey(dateType)])
    ensures TruthyArg(StrArg(endDate)) ==>
      EndKey(dateType) in DateWrite(m, startDate, endDate, dateType)
      && DateWrite(m, startDate, endDate, dateType)[EndKey(dateType)] == Str(endDate.value)
    ensures !TruthyArg(StrArg(endDate)) ==>
      (EndKey(dateType) in DateWrite(m, startDate, endDate, dateType) <==> EndKey(dateType) in m)
      && (EndKey(dateType) in m ==> DateWrite(m, startDate, endDate, dateType)[EndKey(dateType)] == m[EndKey(dateType)])
    ensures !TruthyArg(StrArg(startDate)) && !TruthyArg(StrArg(endDate)) ==> DateWrite(m, startDate, endDate, dateType) == m
    ensures forall k :: k != StartKey(dateType) && k != EndKey(dateType) ==>
      (k in DateWrite(m, startDate, endDate, dateType) <==> k in m)
      && (k in m ==> DateWrite(m, startDate, endDate, dateType)[k] == m[k])
  {
    DateKeysDistinct(dateType);
  }

  /** Repeating the date write with the same arguments changes nothing more. */
  lemma DateWriteIdempotent(m: Params, startDate: Option<string>, endDate: Option<string>, dateType: string)
    ensures DateWrite(DateWrite(m, startDate, endDate, dateType), startDate, endDate, dateType)
         == DateWrite(m, startDate, endDate, dateType)
  {
    var s, e := StartKey(dateType), EndKey(dateType);
    var x, y := StrArg(startDate), StrArg(endDate);
    DateKeysDistinct(dateType);
    var once := Put(Put(m, s, x), e, y);
    calc {
      Put(Put(once, s, x), e, y);
      { PutCommutes(Put(m, s, x), s, x, e, y); }
      Put(Put(Put(Put(m, s, x), s, x), e, y), e, y);
      { PutIdempotent(m, s, x); }
      Put(Put(Put(m, s, x), e, y), e, y);
      { PutIdempotent(Put(m, s, x), e, y); }
      once;
    }
  }

  /** With the default prefix and both bounds given, an empty builder holds exactly the two creation-date keys. */
  lemma DateWriteDefaultPrefix(startDate: string, endDate: string)
    requires startDate != "" && endDate != ""
    ensures DateWrite(map[], Some(startDate), Some(endDate), "create")
         == map["createDateStart" := Str(startDate), "createDateEnd" := Str(endDate)]
  {
    assert StartKey("create") == "createDateStart" && EndKey("create") == "createDateEnd";
  }

  /** A ship-date range on a fresh builder yields exactly the two ship-date keys. */
  lemma DateWriteShipExample()
    ensures DateWrite(map[], Some("2024-01-01"), Some("2024-01-31"), "ship")
         == map["shipDateStart" := Str("2024-01-01"), "shipDateEnd" := Str("2024-01-31")]
  {
    assert StartKey("ship") == "shipDateStart" && EndKey("ship") == "shipDateEnd";
  }
}
