/**
 * The trading server: an Interactive Brokers manager whose `connected` flag
 * guards every broker call, the records it builds from the broker's data,
 * and the NinjaTrader REST client with the order payload it posts.
 *
 * ib_insync and `requests` are not modelled: the caller supplies what the
 * broker or the HTTP service answered, as functions of what was sent.
 */
module Trading {
  import opened Common

  // ------------------------------------------------------ Interactive Brokers

  const NotConnected := "Not connected to IB"

  /** One `accountSummary()` item. */
  datatype SummaryItem = SummaryItem(tag: string, value: string)

  /**
   * One broker position: `str(pos.contract)` and the numeric fields the
   * record copies. The numbers are only copied, so their float nature plays no role.
   */
  datatype BrokerPosition = BrokerPosition(contract: string, position: real, marketPrice: real,
                                           marketValue: real, averageCost: real, unrealizedPNL: real)

  /** One entry of the list `get_positions` returns. */
  datatype PositionRecord =
    | PositionRow(contract: string, position: real, marketPrice: real,
                  marketValue: real, averageCost: real, unrealizedPNL: real)
    | PositionError(error: string)

  /** `Stock(symbol, "SMART", "USD")`. */
  datatype Stock = Stock(symbol: string, exchange: string, currency: string)
  /** `Order(action, quantity, order_type)`. */
  datatype OrderRequest = OrderRequest(action: string, quantity: int, orderType: string)

  /** The dictionary `place_order` returns. */
  datatype OrderReply =
    | OrderPlaced(orderId: int, symbol: string, action: string, quantity: int, orderType: string, status: string)
    | OrderError(error: string)

  /** `{item.tag: item.value for item in summary}`: the tags present, each with its last value. */
  function TagMap(items: seq<SummaryItem>): (m: map<string, string>)
    ensures forall k :: k in m <==> exists i :: 0 <= i < |items| && items[i].tag == k
    decreases |items|
  {
    if items == [] then map[]
    else
      var last := items[|items| - 1];
      var m0 := TagMap(items[..|items| - 1]);
      assert forall i :: 0 <= i < |items| - 1 ==> items[..|items| - 1][i] == items[i];
      m0[last.tag := last.value]
  }

  /** When a tag repeats, the item that comes last decides its value. */
  lemma {:induction false} TagMapLaterWins(items: seq<SummaryItem>, i: nat)
    requires i < |items|
    requires forall j :: i < j < |items| ==> items[j].tag != items[i].tag
    ensures items[i].tag in TagMap(items) && TagMap(items)[items[i].tag] == items[i].value
    decreases |items|
  {
    if i < |items| - 1 {
      var front := items[..|items| - 1];
      assert front[i] == items[i];
      assert forall j :: i < j < |front| ==> front[j] == items[j];
      TagMapLaterWins(front, i);
    }
  }

  /** The record built for one broker position: every field copied. */
  function RecordOf(p: BrokerPosition): (r: PositionRecord)
    ensures r.PositionRow? && r.contract == p.contract && r.position == p.position
    ensures r.marketPrice == p.marketPrice && r.marketValue == p.marketValue
    ensures r.averageCost == p.averageCost && r.unrealizedPNL == p.unrealizedPNL
  {
    PositionRow(p.contract, p.position, p.marketPrice, p.marketValue, p.averageCost, p.unrealizedPNL)
  }

  /** `IBManager`: the broker handle itself carries no modelled state. */
  class IBManager {
    var connected: bool

    constructor ()
      ensures !connected
    {
      connected := false;
    }

    /**
     * `IBManager.connect`; `attempt(host, port, clientId)` is whether
     * `ib.connect` returned or raised. A failure leaves the flag as it was.
     */
    method Connect(host: string, port: int, clientId: int, attempt: (string, int, int) -> Result<()>)
      returns (msg: string)
      modifies this
      ensures attempt(host, port, clientId).Ok? ==>
        connected && msg == "Connected to IB at " + host + ":" + IntToString(port)
      ensures attempt(host, port, clientId).Raised? ==>
        connected == old(connected) && msg == "Failed to connect to IB: " + attempt(host, port, clientId).message
      ensures old(connected) ==> connected
    {
      match attempt(host, port, clientId) {
        case Ok(_) =>
          connected := true;
          msg := "Connected to IB at " + host + ":" + IntToString(port);
        case Raised(m) =>
          msg := "Failed to connect to IB: " + m;
      }
    }

    /** `get_account_summary`; `summary` is what `accountSummary()` returned or raised. */
    method GetAccountSummary(summary: Result<seq<SummaryItem>>) returns (m: map<string, string>)
      ensures !connected ==> m == map["error" := NotConnected]
      ensures connected && summary.Ok? ==> m == TagMap(summary.value)
      ensures connected && summary.Raised? ==> m == map["error" := summary.message]
    {
      if !connected {
        return map["error" := NotConnected];
      }
      match summary {
        case Ok(items) => m := TagMap(items);
        case Raised(e) => m := map["error" := e];
      }
    }

    /** `get_positions`; `positions` is what `positions()` returned, or the error reading it raised. */
    method GetPositions(positions: Result<seq<BrokerPosition>>) returns (rows: seq<PositionRecord>)
      ensures !connected ==> rows == [PositionError(NotConnected)]
      ensures connected && positions.Raised? ==> rows == [PositionError(positions.message)]
      ensures connected && positions.Ok? ==>
        |rows| == |positions.value| && forall i :: 0 <= i < |rows| ==> rows[i] == RecordOf(positions.value[i])
    {
      if !connected {
        return [PositionError(NotConnected)];
      }
      match positions {
        case Ok(ps) =>
          rows := seq(|ps|, i requires 0 <= i < |ps| => RecordOf(ps[i]));
        case Raised(e) =>
          rows := [PositionError(e)];
      }
    }

    /**
     * `place_order`; `placeOrder(contract, order)` is the `orderId` of the
     * trade the broker made for that contract and order, or its error.
     */
    method PlaceOrder(symbol: string, action: string, quantity: int, orderType: string,
                      placeOrder: (Stock, OrderRequest) -> Result<int>) returns (r: OrderReply)
      ensures !connected ==> r == OrderError(NotConnected)
      ensures connected ==>
        var placed := placeOrder(Stock(symbol, "SMART", "USD"), OrderRequest(action, quantity, orderType));
        r == if placed.Ok? then OrderPlaced(placed.value, symbol, action, quantity, orderType, "submitted")
             else OrderError(placed.message)
    {
      if !connected {
        return OrderError(NotConnected);
      }
      var contract := Stock(symbol, "SMART", "USD");
      var order := OrderRequest(action, quantity, orderType);
      match placeOrder(contract, order) {
        case Ok(orderId) => r := OrderPlaced(orderId, symbol, action, quantity, orderType, "submitted");
        case Raised(e) => r := OrderError(e);
      }
    }
  }

  // --------------------------------------------------------------- NinjaTrader

  /** A JSON value, as a request body or a decoded response. */
  datatype Json =
    | JNull
    | JBool(b: bool)
    | JNumber(n: int)
    | JString(s: string)
    | JArray(items: seq<Json>)
    | JObject(fields: map<string, Json>)

  /** The body `NinjaTraderManager.place_order` posts: exactly four keys, from the arguments. */
  function OrderPayload(instrument: string, action: string, quantity: int, orderType: string): (p: map<string, Json>)
    ensures p.Keys == {"instrument", "action", "quantity", "orderType"}
    ensures p["instrument"] == JString(instrument) && p["action"] == JString(action)
    ensures p["quantity"] == JNumber(quantity) && p["orderType"] == JString(orderType)
  {
    map["instrument" := JString(instrument), "action" := JString(action),
        "quantity" := JNumber(quantity), "orderType" := JString(orderType)]
  }

  /** `{"error": str(e)}`. */
  function ErrorObject(message: string): Json
  {
    JObject(map["error" := JString(message)])
  }

  /**
   * `NinjaTraderManager`: a REST client bound to a base URL. The service's
   * answers are `get(url)` and `post(url, body)`: the decoded JSON, or the
   * error the request or the decoding raised.
   */
  class NinjaTraderManager {
    const baseUrl: string

    constructor (baseUrl: string)
      ensures this.baseUrl == baseUrl
    {
      this.baseUrl := baseUrl;
    }

    method GetAccountInfo(get: string -> Result<Json>) returns (r: Json)
      ensures get(baseUrl + "/account").Ok? ==> r == get(baseUrl + "/account").value
      ensures get(baseUrl + "/account").Raised? ==> r == ErrorObject(get(baseUrl + "/account").message)
    {
      match get(baseUrl + "/account") {
        case Ok(body) => r := body;
        case Raised(e) => r := ErrorObject(e);
      }
    }

    /** `get_positions`: a failure is reported as a one-element list. */
    method GetPositions(get: string -> Result<Json>) returns (r: Json)
      ensures get(baseUrl + "/positions").Ok? ==> r == get(baseUrl + "/positions").value
      ensures get(baseUrl + "/positions").Raised? ==> r == JArray([ErrorObject(get(baseUrl + "/positions").message)])
    {
      match get(baseUrl + "/positions") {
        case Ok(body) => r := body;
        case Raised(e) => r := JArray([ErrorObject(e)]);
      }
    }

    method PlaceOrder(instrument: string, action: string, quantity: int, orderType: string,
                      post: (string, map<string, Json>) -> Result<Json>) returns (r: Json)
      ensures var answer := post(baseUrl + "/orders", OrderPayload(instrument, action, quantity, orderType));
        r == if answer.Ok? then answer.value else ErrorObject(answer.message)
    {
      var payload := OrderPayload(instrument, action, quantity, orderType);
      match post(baseUrl + "/orders", payload) {
        case Ok(body) => r := body;
        case Raised(e) => r := ErrorObject(e);
      }
    }
  }
}
