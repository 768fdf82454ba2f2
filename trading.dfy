/**
 * The trading desk: a balance ledger keyed by token symbol, the pending
 * (limit) orders and the order history. Placing an order checks the
 * balance, then either moves funds between USDT and the asset at once
 * (a market order) or only queues the order (a limit order). Balances and
 * prices are exact reals.
 */
module Trading {
  import opened Wrappers
  import Sequences

  datatype OrderType = Market | Limit
  datatype Side = Buy | Sell
  datatype Status = Pending | Completed | Canceled

  /** A tradable asset (its image URL is presentation only and is not modelled). */
  datatype Asset = Asset(id: string, symbol: string, name: string, price: real, change24h: real)

  /** An order; `id` and `date` come from the clock and are parameters of the model. */
  datatype Order = Order(
    id: string, orderType: OrderType, side: Side, assetSymbol: string,
    amount: real, price: real, total: real, status: Status, date: string)

  const Usdt := "USDT"

  /** The balances the desk starts with. */
  const InitialBalances: map<string, real> := map["USDT" := 10000.0, "BTC" := 0.5, "ETH" := 5.2, "SOL" := 20.0]

  /** The market loaded once the wallet is connected. */
  const MarketAssets: seq<Asset> := [
    Asset("bitcoin", "BTC", "Bitcoin", 66724.12, 2.3),
    Asset("ethereum", "ETH", "Ethereum", 3422.87, 1.5),
    Asset("solana", "SOL", "Solana", 182.34, 3.7)
  ]

  /** The pending orders loaded with the market. */
  const MockActiveOrders: seq<Order> := [
    Order("1", Limit, Buy, "BTC", 0.1, 65000.0, 6500.0, Pending, "2023-05-01"),
    Order("2", Limit, Sell, "ETH", 2.0, 3500.0, 7000.0, Pending, "2023-05-02")
  ]

  /** The history loaded with the market. */
  const MockOrderHistory: seq<Order> := [
    Order("3", Market, Buy, "BTC", 0.2, 64000.0, 12800.0, Completed, "2023-04-28"),
    Order("4", Market, Sell, "SOL", 10.0, 180.0, 1800.0, Completed, "2023-04-26"),
    Order("5", Limit, Buy, "ETH", 1.5, 3300.0, 4950.0, Completed, "2023-04-25")
  ]

  /** `balances[sym] || 0`: a missing key reads as zero. */
  function Balance(b: map<string, real>, sym: string): (v: real)
    ensures sym !in b ==> v == 0.0
  {
    if sym in b then b[sym] else 0.0
  }

  /** Every balance is non-negative. */
  predicate NonNegative(b: map<string, real>) {
    forall k :: k in b ==> b[k] >= 0.0
  }

  /** The price an order executes at: the market price, or the price typed in for a limit order. */
  function EffectivePrice(orderType: OrderType, asset: Asset, typedPrice: real): (p: real)
    ensures orderType == Market ==> p == asset.price
    ensures orderType == Limit ==> p == typedPrice
  {
    match orderType
    case Market => asset.price
    case Limit => typedPrice
  }

  /** The balance check: a buy needs USDT of at least `total`, a sell at least `amount` of the asset. */
  predicate Sufficient(b: map<string, real>, side: Side, sym: string, amount: real, total: real)
    requires Usdt in b
    ensures side == Buy ==> (Sufficient(b, side, sym, amount, total) <==> total <= b[Usdt])
    ensures side == Sell && sym in b ==> (Sufficient(b, side, sym, amount, total) <==> amount <= b[sym])
    ensures side == Sell && sym !in b ==> (Sufficient(b, side, sym, amount, total) <==> amount <= 0.0)
  {
    match side
    case Buy => !(b[Usdt] < total)
    case Sell => !(Balance(b, sym) < amount)
  }

  /** The balances after a market order, updated in the order the desk writes them. */
  function MarketBalances(b: map<string, real>, side: Side, sym: string, amount: real, total: real): (r: map<string, real>)
    requires Usdt in b && (side == Sell ==> sym in b)
    ensures r.Keys == b.Keys + {sym}
  {
    match side
    case Buy =>
      var b1 := b[Usdt := b[Usdt] - total];
      b1[sym := Balance(b1, sym) + amount]
    case Sell =>
      var b1 := b[sym := b[sym] - amount];
      b1[Usdt := b1[Usdt] + total]
  }

  /** A market order touches only USDT and the traded asset, moving `total` USDT and `amount` of the asset in opposite directions. */
  lemma MarketMoves(b: map<string, real>, side: Side, sym: string, amount: real, total: real)
    requires Usdt in b && (side == Sell ==> sym in b) && sym != Usdt
    ensures var r := MarketBalances(b, side, sym, amount, total);
      && (forall k :: k in b && k != Usdt && k != sym ==> r[k] == b[k])
      && (side == Buy ==> r[Usdt] == b[Usdt] - total && r[sym] == Balance(b, sym) + amount)
      && (side == Sell ==> r[Usdt] == b[Usdt] + total && r[sym] == b[sym] - amount)
  {
  }

  /** Valued at the execution price, the holdings in USDT and the asset are the same before and after a market order. */
  lemma MarketConservation(b: map<string, real>, side: Side, sym: string, amount: real, price: real)
    requires Usdt in b && (side == Sell ==> sym in b) && sym != Usdt
    ensures var r := MarketBalances(b, side, sym, amount, amount * price);
      r[Usdt] + price * r[sym] == b[Usdt] + price * Balance(b, sym)
  {
    MarketMoves(b, side, sym, amount, amount * price);
  }

  /** With a non-negative amount and price and the balance check passed, no balance goes negative. */
  lemma MarketNonNegative(b: map<string, real>, side: Side, sym: string, amount: real, price: real)
    requires Usdt in b && (side == Sell ==> sym in b)
    requires NonNegative(b) && amount >= 0.0 && price >= 0.0
    requires Sufficient(b, side, sym, amount, amount * price)
    ensures NonNegative(MarketBalances(b, side, sym, amount, amount * price))
  {
    var total := amount * price;
    assert total >= 0.0 by {
      if amount > 0.0 && price > 0.0 {
        assert amount * price > 0.0 * price;
      }
    }
    var r := MarketBalances(b, side, sym, amount, total);
    forall k | k in r ensures r[k] >= 0.0 {
      if side == Buy {
        var b1 := b[Usdt := b[Usdt] - total];
        assert NonNegative(b1);
      } else {
        var b1 := b[sym := b[sym] - amount];
        assert NonNegative(b1);
      }
    }
  }

  /**
   * The balance check does not exclude a negative amount: selling -1 BTC at
   * market from the initial balances passes it and leaves USDT negative.
   */
  lemma NegativeSellOverdraws()
    ensures Sufficient(InitialBalances, Sell, "BTC", -1.0, -1.0 * 66724.12)
    ensures MarketBalances(InitialBalances, Sell, "BTC", -1.0, -1.0 * 66724.12)[Usdt] < 0.0
  {
    assert InitialBalances["BTC"] == 0.5;
    assert InitialBalances[Usdt] == 10000.0;
  }

  /** `orders.filter(order => order.id !== id)`. */
  function WithoutOrder(orders: seq<Order>, id: string): (r: seq<Order>)
    ensures |r| <= |orders|
    ensures forall o :: o in r <==> o in orders && o.id != id
  {
    if orders == [] then []
    else (if orders[0].id != id then [orders[0]] else []) + WithoutOrder(orders[1..], id)
  }

  /** Cancelling keeps the remaining orders in their order. */
  lemma {:induction false} WithoutOrderKeepsOrder(orders: seq<Order>, id: string)
    ensures Sequences.IsSubsequence(WithoutOrder(orders, id), orders)
    decreases |orders|
  {
    if orders != [] {
      WithoutOrderKeepsOrder(orders[1..], id);
      var rest := WithoutOrder(orders[1..], id);
      var r := WithoutOrder(orders, id);
      if orders[0].id != id {
        assert r == [orders[0]] + rest;
        assert r != [] && r[0] == orders[0] && r[1..] == rest;
      } else {
        assert r == rest;
      }
    }
  }

  /** Cancelling an id no order has changes nothing. */
  lemma {:induction false} WithoutOrderAbsent(orders: seq<Order>, id: string)
    requires forall i :: 0 <= i < |orders| ==> orders[i].id != id
    ensures WithoutOrder(orders, id) == orders
    decreases |orders|
  {
    if orders != [] {
      WithoutOrderAbsent(orders[1..], id);
      assert orders == [orders[0]] + orders[1..];
    }
  }

  /** Cancelling twice is cancelling once. */
  lemma WithoutOrderIdempotent(orders: seq<Order>, id: string)
    ensures WithoutOrder(WithoutOrder(orders, id), id) == WithoutOrder(orders, id)
  {
    var r := WithoutOrder(orders, id);
    forall i | 0 <= i < |r| ensures r[i].id != id {
      assert r[i] in r;
    }
    WithoutOrderAbsent(r, id);
  }

  /** `assets.find(a => a.id === id)`: the first asset with that id. */
  function FindAsset(assets: seq<Asset>, id: string): (r: Option<Asset>)
    ensures r.None? <==> forall i :: 0 <= i < |assets| ==> assets[i].id != id
    ensures r.Some? ==> exists i :: 0 <= i < |assets| && assets[i] == r.value
                          && r.value.id == id && forall j :: 0 <= j < i ==> assets[j].id != id
  {
    if assets == [] then None
    else if assets[0].id == id then Some(assets[0])
    else
      var r := FindAsset(assets[1..], id);
      assert r.Some? ==> exists i :: 0 <= i < |assets| - 1 && assets[1..][i] == r.value
                          && forall j :: 0 <= j < i ==> assets[1..][j].id != id;
      assert forall i :: 0 <= i < |assets| - 1 ==> assets[1..][i] == assets[i + 1];
      r
  }

  /** What `handlePlaceOrder` did, in place of its alerts. */
  datatype Outcome =
    | Ignored
    | InsufficientBalance(symbol: string)
    | Executed(order: Order)
    | Queued(order: Order)

  /** The trading page's state; `amount` is None while the amount field is empty. */
  class TradingDesk {
    var balances: map<string, real>
    var assets: seq<Asset>
    var selectedAsset: Option<Asset>
    var orderType: OrderType
    var tradeType: Side
    var amount: Option<real>
    var price: real
    var activeOrders: seq<Order>
    var orderHistory: seq<Order>

    /**
     * The seeded keys are never removed, every listed asset has a balance,
     * the selected asset is a listed one, the queue holds only pending
     * orders and the history only completed ones.
     */
    predicate Valid()
      reads this
    {
      && InitialBalances.Keys <= balances.Keys
      && (forall i :: 0 <= i < |assets| ==> assets[i].symbol in balances)
      && (selectedAsset.Some? ==> selectedAsset.value in assets)
      && (forall i :: 0 <= i < |activeOrders| ==> activeOrders[i].status == Pending)
      && (forall i :: 0 <= i < |orderHistory| ==> orderHistory[i].status == Completed)
    }

    /** The state before the market has loaded. */
    constructor ()
      ensures Valid()
      ensures balances == InitialBalances && assets == [] && selectedAsset == None
      ensures orderType == Market && tradeType == Buy && amount == None && price == 0.0
      ensures activeOrders == [] && orderHistory == []
    {
      balances := InitialBalances;
      assets := [];
      selectedAsset := None;
      orderType := Market;
      tradeType := Buy;
      amount := None;
      price := 0.0;
      activeOrders := [];
      orderHistory := [];
    }

    /** The load once connected: the three assets, the first one selected at its price, and the mock orders. */
    method LoadMarket()
      requires Valid()
      modifies this
      ensures Valid()
      ensures assets == MarketAssets && selectedAsset == Some(MarketAssets[0]) && price == MarketAssets[0].price
      ensures activeOrders == MockActiveOrders && orderHistory == MockOrderHistory
      ensures balances == old(balances) && orderType == old(orderType) && tradeType == old(tradeType)
      ensures amount == old(amount)
    {
      assert forall i :: 0 <= i < |MarketAssets| ==> MarketAssets[i].symbol in InitialBalances.Keys;
      assets := MarketAssets;
      selectedAsset := Some(assets[0]);
      price := assets[0].price;
      activeOrders := MockActiveOrders;
      orderHistory := MockOrderHistory;
    }

    /** `handleAssetChange`: a listed id selects that asset and copies its price; any other id changes nothing. */
    method HandleAssetChange(id: string)
      requires Valid()
      modifies this
      ensures Valid()
      ensures FindAsset(assets, id).Some? ==>
        selectedAsset == FindAsset(assets, id) && price == FindAsset(assets, id).value.price
      ensures FindAsset(assets, id).None? ==> selectedAsset == old(selectedAsset) && price == old(price)
      ensures balances == old(balances) && assets == old(assets) && amount == old(amount)
      ensures orderType == old(orderType) && tradeType == old(tradeType)
      ensures activeOrders == old(activeOrders) && orderHistory == old(orderHistory)
    {
      var found := FindAsset(assets, id);
      if found.Some? {
        selectedAsset := found;
        price := found.value.price;
      }
    }

    method SetOrderType(t: OrderType)
      requires Valid()
      modifies this
      ensures Valid() && orderType == t
      ensures balances == old(balances) && assets == old(assets) && selectedAsset == old(selectedAsset)
      ensures tradeType == old(tradeType) && amount == old(amount) && price == old(price)
      ensures activeOrders == old(activeOrders) && orderHistory == old(orderHistory)
    {
      orderType := t;
    }

    method SetTradeType(s: Side)
      requires Valid()
      modifies this
      ensures Valid() && tradeType == s
      ensures balances == old(balances) && assets == old(assets) && selectedAsset == old(selectedAsset)
      ensures orderType == old(orderType) && amount == old(amount) && price == old(price)
      ensures activeOrders == old(activeOrders) && orderHistory == old(orderHistory)
    {
      tradeType := s;
    }

    /** The amount field, already parsed; None is the empty field. */
    method SetAmount(a: Option<real>)
      requires Valid()
      modifies this
      ensures Valid() && amount == a
      ensures balances == old(balances) && assets == old(assets) && selectedAsset == old(selectedAsset)
      ensures orderType == old(orderType) && tradeType == old(tradeType) && price == old(price)
      ensures activeOrders == old(activeOrders) && orderHistory == old(orderHistory)
    {
      amount := a;
    }

    /** The limit-price field, already parsed. */
    method SetPrice(p: real)
      requires Valid()
      modifies this
      ensures Valid() && price == p
      ensures balances == old(balances) && assets == old(assets) && selectedAsset == old(selectedAsset)
      ensures orderType == old(orderType) && tradeType == old(tradeType) && amount == old(amount)
      ensures activeOrders == old(activeOrders) && orderHistory == old(orderHistory)
    {
      price := p;
    }

    /**
     * `handlePlaceOrder`, with `newId` and `today` standing for the clock.
     * Nothing happens without a selected asset and an amount, or when the
     * balance check fails. A market order moves the funds and is recorded
     * as completed; a limit order is queued as pending and moves nothing.
     * After either the amount field is cleared.
     */
    method PlaceOrder(newId: string, today: string) returns (outcome: Outcome)
      requires Valid()
      modifies this
      ensures Valid()
      ensures assets == old(assets) && selectedAsset == old(selectedAsset) && price == old(price)
      ensures orderType == old(orderType) && tradeType == old(tradeType)
      ensures old(selectedAsset).None? || old(amount).None? ==> outcome == Ignored && unchanged(this)
      ensures old(selectedAsset).Some? && old(amount).Some? ==>
        var sym := old(selectedAsset).value.symbol;
        var qty := old(amount).value;
        var p := EffectivePrice(old(orderType), old(selectedAsset).value, old(price));
        var total := qty * p;
        && (!Sufficient(old(balances), old(tradeType), sym, qty, total) ==>
              outcome == InsufficientBalance(if old(tradeType) == Buy then Usdt else sym) && unchanged(this))
        && (Sufficient(old(balances), old(tradeType), sym, qty, total) && old(orderType) == Market ==>
              && outcome == Executed(Order(newId, Market, old(tradeType), sym, qty, p, total, Completed, today))
              && balances == MarketBalances(old(balances), old(tradeType), sym, qty, total)
              && orderHistory == [outcome.order] + old(orderHistory)
              && activeOrders == old(activeOrders)
              && amount == None)
        && (Sufficient(old(balances), old(tradeType), sym, qty, total) && old(orderType) == Limit ==>
              && outcome == Queued(Order(newId, Limit, old(tradeType), sym, qty, p, total, Pending, today))
              && activeOrders == [outcome.order] + old(activeOrders)
              && balances == old(balances) && orderHistory == old(orderHistory)
              && amount == None)
    {
      if selectedAsset.None? || amount.None? {
        return Ignored;
      }
      var asset := selectedAsset.value;
      var parsedAmount := amount.value;
      var parsedPrice := if orderType == Market then asset.price else price;
      var total := parsedAmount * parsedPrice;

      if tradeType == Buy {
        if balances[Usdt] < total {
          return InsufficientBalance(Usdt);
        }
      } else {
        if Balance(balances, asset.symbol) < parsedAmount {
          return InsufficientBalance(asset.symbol);
        }
      }

      if orderType == Market {
        var newOrder := Order(newId, Market, tradeType, asset.symbol, parsedAmount, parsedPrice, total, Completed, today);
        ExecuteMarket(newOrder);
        outcome := Executed(newOrder);
      } else {
        var newOrder := Order(newId, Limit, tradeType, asset.symbol, parsedAmount, parsedPrice, total, Pending, today);
        activeOrders := [newOrder] + activeOrders;
        outcome := Queued(newOrder);
      }
      amount := None;
    }

    /** The market branch of `handlePlaceOrder`: a copy of the balances updated key by key, and the order recorded. */
    method ExecuteMarket(order: Order)
      requires Valid() && order.status == Completed && (order.side == Sell ==> order.assetSymbol in balances)
      modifies this
      ensures Valid()
      ensures balances == MarketBalances(old(balances), order.side, order.assetSymbol, order.amount, order.total)
      ensures orderHistory == [order] + old(orderHistory)
      ensures assets == old(assets) && selectedAsset == old(selectedAsset) && price == old(price)
      ensures orderType == old(orderType) && tradeType == old(tradeType) && amount == old(amount)
      ensures activeOrders == old(activeOrders)
    {
      var newBalances := balances;
      if order.side == Buy {
        newBalances := newBalances[Usdt := newBalances[Usdt] - order.total];
        newBalances := newBalances[order.assetSymbol := Balance(newBalances, order.assetSymbol) + order.amount];
      } else {
        newBalances := newBalances[order.assetSymbol := newBalances[order.assetSymbol] - order.amount];
        newBalances := newBalances[Usdt := newBalances[Usdt] + order.total];
      }
      balances := newBalances;
      orderHistory := [order] + orderHistory;
    }

    /** `handleCancelOrder`: the queued orders with that id are dropped, the rest keep their order. */
    method CancelOrder(id: string)
      requires Valid()
      modifies this
      ensures Valid()
      ensures activeOrders == WithoutOrder(old(activeOrders), id)
      ensures balances == old(balances) && orderHistory == old(orderHistory)
      ensures assets == old(assets) && selectedAsset == old(selectedAsset) && price == old(price)
      ensures orderType == old(orderType) && tradeType == old(tradeType) && amount == old(amount)
    {
      var kept := WithoutOrder(activeOrders, id);
      forall i | 0 <= i < |kept| ensures kept[i].status == Pending {
        assert kept[i] in activeOrders;
      }
      activeOrders := kept;
    }
  }
}
