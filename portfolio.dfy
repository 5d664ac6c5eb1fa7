/**
 * The portfolio tracker of the Android client: holdings kept per coin and
 * changed by buy and sell transactions, the totals shown on the portfolio
 * screen, the bounded security log, the checks run on market data and on
 * transactions, and the concentration anomaly score.
 *
 * Kotlin `Double`s are `real`s. The Room tables become state: the holdings
 * table is a map from coin id to row, the coin table a map from id to coin
 * (its `REPLACE` insert keeps one row per id), the transaction table a
 * sequence. `System.currentTimeMillis()` is the parameter `now`, and the
 * rendering of a `Double` inside a message is the parameter `show`.
 */
module Portfolio {
  import opened Wrappers
  import opened Bounded
  import opened Sorting
  import Stats

  // ---------------------------------------------------------------------
  // Data

  datatype Cryptocurrency = Cryptocurrency(id: string, symbol: string, name: string, currentPrice: real,
                                           priceChange24h: real, priceChangePercentage24h: real,
                                           marketCap: int, volume24h: int, lastUpdated: string)

  /** A row of the holdings table (its generated row id and time stamps are not modelled). */
  datatype Holding = Holding(cryptoId: string, symbol: string, amount: real, averageBuyPrice: real, totalInvested: real)

  datatype TransactionType = Buy | Sell | TransferIn | TransferOut

  datatype Transaction = Transaction(cryptoId: string, symbol: string, kind: TransactionType, amount: real,
                                     price: real, totalValue: real, fee: real, notes: Option<string>,
                                     timestamp: string)

  /** Kotlin `Double` division, except that a zero divisor gives 0 where IEEE gives an infinity or NaN. */
  function Quot(x: real, y: real): (q: real)
    ensures y != 0.0 ==> q * y == x
    ensures y == 0.0 ==> q == 0.0
  {
    if y == 0.0 then 0.0 else x / y
  }

  // ---------------------------------------------------------------------
  // Holdings bookkeeping

  /** Every holding is stored under its own coin id, as `getHoldingByCryptoId` finds it. */
  predicate KeyedByCoin(holdings: map<string, Holding>)
  {
    forall id :: id in holdings ==> holdings[id].cryptoId == id
  }

  /** The holdings table after `updatePortfolioHolding(tx)`. */
  function Applied(holdings: map<string, Holding>, tx: Transaction): (r: map<string, Holding>)
    ensures forall id :: id != tx.cryptoId ==> (id in r <==> id in holdings)
    ensures forall id :: id != tx.cryptoId && id in r ==> r[id] == holdings[id]
    ensures KeyedByCoin(holdings) ==> KeyedByCoin(r)
  {
    var id := tx.cryptoId;
    match tx.kind
    case Buy =>
      if id in holdings then
        var h := holdings[id];
        var newAmount := h.amount + tx.amount;
        var newTotalInvested := h.totalInvested + tx.totalValue;
        holdings[id := h.(amount := newAmount, averageBuyPrice := Quot(newTotalInvested, newAmount),
                          totalInvested := newTotalInvested)]
      else
        holdings[id := Holding(id, tx.symbol, tx.amount, tx.price, tx.totalValue)]
    case Sell =>
      if id in holdings then
        var h := holdings[id];
        var newAmount := h.amount - tx.amount;
        var proportionSold := Quot(tx.amount, h.amount);
        if newAmount > 0.0 then
          holdings[id := h.(amount := newAmount, totalInvested := h.totalInvested * (1.0 - proportionSold))]
        else
          holdings - {id}
      else
        holdings
    case TransferIn => holdings
    case TransferOut => holdings
  }

  /** A buy of a held coin adds amount and value, and the average price becomes value over amount. */
  lemma BuyIntoHolding(holdings: map<string, Holding>, tx: Transaction)
    requires tx.kind == Buy && tx.cryptoId in holdings
    ensures tx.cryptoId in Applied(holdings, tx)
    ensures var (h, n) := (holdings[tx.cryptoId], Applied(holdings, tx)[tx.cryptoId]);
      && n.cryptoId == h.cryptoId && n.symbol == h.symbol
      && n.amount == h.amount + tx.amount
      && n.totalInvested == h.totalInvested + tx.totalValue
      && (n.amount != 0.0 ==> n.averageBuyPrice * n.amount == n.totalInvested)
  {
  }

  /** A buy of a coin not held opens a holding priced at the transaction price. */
  lemma BuyOpensHolding(holdings: map<string, Holding>, tx: Transaction)
    requires tx.kind == Buy && tx.cryptoId !in holdings
    ensures tx.cryptoId in Applied(holdings, tx)
    ensures var n := Applied(holdings, tx)[tx.cryptoId];
      n.amount == tx.amount && n.averageBuyPrice == tx.price && n.totalInvested == tx.totalValue
  {
  }

  /** Selling at least what is held deletes the holding. */
  lemma SellClosesHolding(holdings: map<string, Holding>, tx: Transaction)
    requires tx.kind == Sell && tx.cryptoId in holdings && holdings[tx.cryptoId].amount <= tx.amount
    ensures tx.cryptoId !in Applied(holdings, tx)
  {
  }

  /**
   * Selling less than is held keeps the holding with the rest of the amount,
   * leaves the average buy price alone, and scales the invested total by the
   * part kept, so the cost of each remaining unit is what it was.
   */
  lemma SellReducesHolding(holdings: map<string, Holding>, tx: Transaction)
    requires tx.kind == Sell && tx.cryptoId in holdings && holdings[tx.cryptoId].amount > tx.amount
    ensures tx.cryptoId in Applied(holdings, tx)
    ensures var (h, n) := (holdings[tx.cryptoId], Applied(holdings, tx)[tx.cryptoId]);
      && n.amount == h.amount - tx.amount
      && n.averageBuyPrice == h.averageBuyPrice
      && (h.amount != 0.0 ==> n.totalInvested * h.amount == h.totalInvested * n.amount)
  {
    var h := holdings[tx.cryptoId];
    if h.amount != 0.0 {
      var p := tx.amount / h.amount;
      assert p * h.amount == tx.amount;
      assert (1.0 - p) * h.amount == h.amount - tx.amount;
      assert h.totalInvested * (1.0 - p) * h.amount == h.totalInvested * (h.amount - tx.amount);
    }
  }

  /** Selling a coin not held, and either transfer, leave the table as it was. */
  lemma UnchangedBy(holdings: map<string, Holding>, tx: Transaction)
    requires tx.kind.TransferIn? || tx.kind.TransferOut? || (tx.kind == Sell && tx.cryptoId !in holdings)
    ensures Applied(holdings, tx) == holdings
  {
  }

  /** Buying a new coin and then selling at least as much of it restores the table. */
  lemma BuyThenSellAllRestores(holdings: map<string, Holding>, buy: Transaction, sell: Transaction)
    requires buy.kind == Buy && sell.kind == Sell && buy.cryptoId == sell.cryptoId
    requires buy.cryptoId !in holdings && sell.amount >= buy.amount
    ensures Applied(Applied(holdings, buy), sell) == holdings
  {
    var afterBuy := Applied(holdings, buy);
    assert afterBuy[buy.cryptoId].amount == buy.amount;
    assert Applied(afterBuy, sell) == afterBuy - {buy.cryptoId};
  }

  predicate PositiveAmounts(holdings: map<string, Holding>)
  {
    forall id :: id in holdings ==> holdings[id].amount > 0.0
  }

  /** With positive buy amounts, every stored holding keeps a positive amount. */
  lemma AppliedKeepsAmountsPositive(holdings: map<string, Holding>, tx: Transaction)
    requires PositiveAmounts(holdings) && (tx.kind == Buy ==> tx.amount > 0.0)
    ensures PositiveAmounts(Applied(holdings, tx))
  {
    var r := Applied(holdings, tx);
    forall id | id in r
      ensures r[id].amount > 0.0
    {
      if id == tx.cryptoId && tx.kind == Buy && id in holdings {
        BuyIntoHolding(holdings, tx);
      }
    }
  }

  /** The portfolio table, read and written through its DAO; keyed by coin id. */
  class HoldingsTable {
    var rows: map<string, Holding>

    predicate Valid()
      reads this
    {
      KeyedByCoin(rows)
    }

    constructor ()
      ensures Valid() && rows == map[]
    {
      rows := map[];
    }

    function GetHoldingByCryptoId(cryptoId: string): (h: Option<Holding>)
      reads this
      ensures h.Some? <==> cryptoId in rows
      ensures h.Some? ==> h.value == rows[cryptoId]
    {
      if cryptoId in rows then Some(rows[cryptoId]) else None
    }

    /** `insertHolding` with `REPLACE`: the row for the coin is this one. */
    method InsertHolding(h: Holding)
      modifies this
      ensures rows == old(rows)[h.cryptoId := h]
    {
      rows := rows[h.cryptoId := h];
    }

    /** `updateHolding`: overwrites a stored row; a row that is not stored is not added. */
    method UpdateHolding(h: Holding)
      modifies this
      ensures rows == if h.cryptoId in old(rows) then old(rows)[h.cryptoId := h] else old(rows)
    {
      if h.cryptoId in rows {
        rows := rows[h.cryptoId := h];
      }
    }

    method DeleteHolding(h: Holding)
      modifies this
      ensures rows == old(rows) - {h.cryptoId}
    {
      rows := rows - {h.cryptoId};
    }
  }

  /** `updatePortfolioHolding`, through the DAO calls the repositories make. */
  method UpdatePortfolioHolding(table: HoldingsTable, tx: Transaction)
    requires table.Valid()
    modifies table
    ensures table.Valid()
    ensures table.rows == Applied(old(table.rows), tx)
  {
    var existing := table.GetHoldingByCryptoId(tx.cryptoId);
    match tx.kind {
      case Buy =>
        if existing.Some? {
          var h := existing.value;
          assert h.cryptoId == tx.cryptoId;
          var newAmount := h.amount + tx.amount;
          var newTotalInvested := h.totalInvested + tx.totalValue;
          var newAveragePrice := Quot(newTotalInvested, newAmount);
          table.UpdateHolding(h.(amount := newAmount, averageBuyPrice := newAveragePrice, totalInvested := newTotalInvested));
        } else {
          table.InsertHolding(Holding(tx.cryptoId, tx.symbol, tx.amount, tx.price, tx.totalValue));
        }
      case Sell =>
        if existing.Some? {
          var h := existing.value;
          assert h.cryptoId == tx.cryptoId;
          var newAmount := h.amount - tx.amount;
          var proportionSold := Quot(tx.amount, h.amount);
          var newTotalInvested := h.totalInvested * (1.0 - proportionSold);
          if newAmount > 0.0 {
            assert Applied(table.rows, tx)[tx.cryptoId].amount == newAmount;
            assert Applied(table.rows, tx)[tx.cryptoId].totalInvested == newTotalInvested;
            table.UpdateHolding(h.(amount := newAmount, totalInvested := newTotalInvested));
          } else {
            table.DeleteHolding(h);
          }
        }
      case TransferIn =>
      case TransferOut =>
    }
  }

  // ---------------------------------------------------------------------
  // Portfolio totals

  /**
   * `associateBy { it.id }`, and the coin table after a `REPLACE` insert:
   * every coin's id is present, and the last coin wins an id.
   */
  function PriceTable(cryptos: seq<Cryptocurrency>): (m: map<string, Cryptocurrency>)
    ensures forall id :: id in m ==> m[id].id == id
    ensures forall i :: 0 <= i < |cryptos| ==> cryptos[i].id in m
    ensures |cryptos| > 0 ==> m[cryptos[|cryptos| - 1].id] == cryptos[|cryptos| - 1]
    decreases |cryptos|
  {
    if |cryptos| == 0 then map[]
    else
      var c := cryptos[|cryptos| - 1];
      var m := PriceTable(cryptos[..|cryptos| - 1])[c.id := c];
      assert forall i :: 0 <= i < |cryptos| - 1 ==> cryptos[..|cryptos| - 1][i] == cryptos[i];
      m
  }

  /** With distinct ids the table holds every coin under its own id. */
  lemma {:induction false} PriceTableOfDistinct(cryptos: seq<Cryptocurrency>)
    requires DistinctIds(cryptos)
    ensures forall i :: 0 <= i < |cryptos| ==> PriceTable(cryptos)[cryptos[i].id] == cryptos[i]
    decreases |cryptos|
  {
    if |cryptos| > 0 {
      var front := cryptos[..|cryptos| - 1];
      assert forall i :: 0 <= i < |front| ==> front[i] == cryptos[i];
      PriceTableOfDistinct(front);
      forall i | 0 <= i < |cryptos| - 1
        ensures PriceTable(cryptos)[cryptos[i].id] == cryptos[i]
      {
        assert cryptos[i].id != cryptos[|cryptos| - 1].id;
        assert PriceTable(front)[front[i].id] == front[i];
      }
    }
  }

  function CurrentValue(h: Holding, prices: map<string, Cryptocurrency>): real
    requires h.cryptoId in prices
  {
    h.amount * prices[h.cryptoId].currentPrice
  }

  /** The current value of every holding whose coin has a market price. */
  function TotalValue(holdings: seq<Holding>, prices: map<string, Cryptocurrency>): real
    decreases |holdings|
  {
    if |holdings| == 0 then 0.0
    else
      var h := holdings[|holdings| - 1];
      TotalValue(holdings[..|holdings| - 1], prices) + (if h.cryptoId in prices then CurrentValue(h, prices) else 0.0)
  }

  /** What was invested in every holding whose coin has a market price. */
  function TotalInvested(holdings: seq<Holding>, prices: map<string, Cryptocurrency>): real
    decreases |holdings|
  {
    if |holdings| == 0 then 0.0
    else
      var h := holdings[|holdings| - 1];
      TotalInvested(holdings[..|holdings| - 1], prices) + (if h.cryptoId in prices then h.totalInvested else 0.0)
  }

  datatype PortfolioItem = PortfolioItem(holding: Holding, cryptocurrency: Cryptocurrency, currentValue: real,
                                         profitLoss: real, profitLossPercentage: real)

  /** One screen line; its percentage divides by the invested amount without a guard. */
  function Item(h: Holding, prices: map<string, Cryptocurrency>): (it: PortfolioItem)
    requires h.cryptoId in prices
    ensures it.holding == h && it.cryptocurrency == prices[h.cryptoId]
    ensures it.currentValue == CurrentValue(h, prices)
    ensures it.profitLoss == it.currentValue - h.totalInvested
    ensures h.totalInvested != 0.0 ==> it.profitLossPercentage * h.totalInvested == 100.0 * it.profitLoss
  {
    var value := h.amount * prices[h.cryptoId].currentPrice;
    var pl := value - h.totalInvested;
    var q := Quot(pl, h.totalInvested);
    assert h.totalInvested != 0.0 ==> q * 100.0 * h.totalInvested == 100.0 * pl;
    PortfolioItem(h, prices[h.cryptoId], value, pl, q * 100.0)
  }

  function SumCurrentValue(items: seq<PortfolioItem>): real
    decreases |items|
  {
    if |items| == 0 then 0.0 else SumCurrentValue(items[..|items| - 1]) + items[|items| - 1].currentValue
  }

  function SumInvested(items: seq<PortfolioItem>): real
    decreases |items|
  {
    if |items| == 0 then 0.0 else SumInvested(items[..|items| - 1]) + items[|items| - 1].holding.totalInvested
  }

  /** `holdings.mapNotNull`: a line for each holding whose coin has a market price, in order. */
  function Items(holdings: seq<Holding>, prices: map<string, Cryptocurrency>): (r: seq<PortfolioItem>)
    ensures |r| <= |holdings|
    ensures forall i :: 0 <= i < |r| ==> r[i].holding in holdings && r[i].holding.cryptoId in prices
                                         && r[i] == Item(r[i].holding, prices)
    ensures (forall h :: h in holdings ==> h.cryptoId in prices) ==> |r| == |holdings|
    ensures SumCurrentValue(r) == TotalValue(holdings, prices)
    ensures SumInvested(r) == TotalInvested(holdings, prices)
    decreases |holdings|
  {
    if |holdings| == 0 then []
    else
      var h := holdings[|holdings| - 1];
      var front := holdings[..|holdings| - 1];
      var rest := Items(front, prices);
      assert forall g :: g in front ==> g in holdings;
      if h.cryptoId in prices then
        var r := rest + [Item(h, prices)];
        assert r[..|r| - 1] == rest;
        r
      else
        rest
  }

  /** The total profit or loss as a percentage of what was invested; 0 when nothing positive was invested. */
  function ProfitLossPercentage(totalValue: real, totalInvested: real): (p: real)
    ensures totalInvested <= 0.0 ==> p == 0.0
    ensures totalInvested > 0.0 ==> p * totalInvested == 100.0 * (totalValue - totalInvested)
    ensures totalInvested > 0.0 ==> (p > 0.0 <==> totalValue > totalInvested) && (p < 0.0 <==> totalValue < totalInvested)
  {
    if totalInvested > 0.0 then
      var p := (totalValue - totalInvested) / totalInvested * 100.0;
      assert p * totalInvested == 100.0 * (totalValue - totalInvested);
      p
    else 0.0
  }

  datatype PortfolioUiState = PortfolioUiState(portfolioItems: seq<PortfolioItem>, totalValue: real,
                                               totalInvested: real, totalProfitLoss: real,
                                               totalProfitLossPercentage: real)

  /** The portfolio screen state `loadPortfolioData` builds from the two table listings. */
  function PortfolioScreen(holdings: seq<Holding>, cryptos: seq<Cryptocurrency>): (s: PortfolioUiState)
    ensures s.totalValue == TotalValue(holdings, PriceTable(cryptos))
    ensures s.totalInvested == TotalInvested(holdings, PriceTable(cryptos))
    ensures s.totalProfitLoss == s.totalValue - s.totalInvested
    ensures s.totalInvested <= 0.0 ==> s.totalProfitLossPercentage == 0.0
    ensures s.totalInvested > 0.0 ==> s.totalProfitLossPercentage * s.totalInvested == 100.0 * s.totalProfitLoss
  {
    var items := Items(holdings, PriceTable(cryptos));
    var totalValue := SumCurrentValue(items);
    var totalInvested := SumInvested(items);
    PortfolioUiState(items, totalValue, totalInvested, totalValue - totalInvested,
                     ProfitLossPercentage(totalValue, totalInvested))
  }

  // ---------------------------------------------------------------------
  // Concentration anomaly score

  /** The value of each priced coin; a later holding of the same coin overwrites an earlier one. */
  function AssetValues(holdings: seq<Holding>, prices: map<string, Cryptocurrency>): (m: map<string, real>)
    ensures forall id :: id in m ==> id in prices
    decreases |holdings|
  {
    if |holdings| == 0 then map[]
    else
      var h := holdings[|holdings| - 1];
      var rest := AssetValues(holdings[..|holdings| - 1], prices);
      if h.cryptoId in prices then rest[h.cryptoId := CurrentValue(h, prices)] else rest
  }

  /** The coins worth more than half of the priced total. */
  function Concentrated(values: map<string, real>, total: real): set<string>
  {
    set id | id in values && total > 0.0 && values[id] / total > 0.5
  }

  const ConcentrationWeight: real := 0.3
  const DiversificationWeight: real := 0.1
  const ManyHoldings: nat := 20

  /** `calculateAnomalyScore`: 0.3 per concentrated coin, 0.1 above 20 holdings, capped at 1.0. */
  function AnomalyScore(holdings: seq<Holding>, prices: map<string, Cryptocurrency>): (score: real)
    ensures 0.0 <= score <= 1.0
  {
    var raw := ConcentrationWeight * |Concentrated(AssetValues(holdings, prices), TotalValue(holdings, prices))| as real
               + (if |holdings| > ManyHoldings then DiversificationWeight else 0.0);
    if raw <= 1.0 then raw else 1.0
  }

  /** No holding is short and no coin has a negative price. */
  predicate NonNegative(holdings: seq<Holding>, prices: map<string, Cryptocurrency>)
  {
    (forall h :: h in holdings ==> h.amount >= 0.0) && (forall id :: id in prices ==> prices[id].currentPrice >= 0.0)
  }

  /** Every value, and any two values together, lie between 0 and `total`. */
  predicate WithinTotal(values: map<string, real>, total: real)
  {
    total >= 0.0
    && (forall a :: a in values ==> 0.0 <= values[a] <= total)
    && (forall a, b :: a in values && b in values && a != b ==> values[a] + values[b] <= total)
  }

  /** Setting one coin's value to `v` while the total grows by `v` keeps the values within the total. */
  lemma WithinTotalStep(values: map<string, real>, total: real, id: string, v: real)
    requires WithinTotal(values, total) && v >= 0.0
    ensures WithinTotal(values[id := v], total + v)
  {
    var m := values[id := v];
    forall a | a in m
      ensures 0.0 <= m[a] <= total + v
    {
      if a != id {
        assert m[a] == values[a];
      }
    }
    forall a, b | a in m && b in m && a != b
      ensures m[a] + m[b] <= total + v
    {
      if a == id {
        assert m[b] == values[b];
      } else if b == id {
        assert m[a] == values[a];
      } else {
        assert m[a] == values[a] && m[b] == values[b];
      }
    }
  }

  /** With nothing negative, each coin's value, and the values of any two coins together, stay within the total. */
  lemma {:induction false} AssetValuesWithinTotal(holdings: seq<Holding>, prices: map<string, Cryptocurrency>)
    requires NonNegative(holdings, prices)
    ensures WithinTotal(AssetValues(holdings, prices), TotalValue(holdings, prices))
    decreases |holdings|
  {
    if |holdings| > 0 {
      var front := holdings[..|holdings| - 1];
      var h := holdings[|holdings| - 1];
      assert forall g :: g in front ==> g in holdings;
      AssetValuesWithinTotal(front, prices);
      if h.cryptoId in prices {
        var v := CurrentValue(h, prices);
        assert h in holdings;
        assert v >= 0.0 by {
          assert v == h.amount * prices[h.cryptoId].currentPrice;
        }
        WithinTotalStep(AssetValues(front, prices), TotalValue(front, prices), h.cryptoId, v);
      }
    }
  }

  /** With nothing negative, at most one coin can be worth more than half of the total. */
  lemma AtMostOneConcentrated(holdings: seq<Holding>, prices: map<string, Cryptocurrency>)
    requires NonNegative(holdings, prices)
    ensures |Concentrated(AssetValues(holdings, prices), TotalValue(holdings, prices))| <= 1
  {
    var m := AssetValues(holdings, prices);
    var t := TotalValue(holdings, prices);
    var c := Concentrated(m, t);
    if |c| > 1 {
      var a :| a in c;
      assert |c - {a}| == |c| - 1;
      var b :| b in c - {a};
      assert a in m && t > 0.0 && m[a] / t > 0.5;
      assert b in m && m[b] / t > 0.5 && a != b;
      Stats.DivAbove(m[a], t, 0.5);
      Stats.DivAbove(m[b], t, 0.5);
      AssetValuesWithinTotal(holdings, prices);
      assert false;
    }
  }

  /** So the score never exceeds 0.4, and the 1.0 cap never takes effect. */
  lemma AnomalyScoreBound(holdings: seq<Holding>, prices: map<string, Cryptocurrency>)
    requires NonNegative(holdings, prices)
    ensures AnomalyScore(holdings, prices) <= 0.4
    ensures AnomalyScore(holdings, prices)
            == ConcentrationWeight * |Concentrated(AssetValues(holdings, prices), TotalValue(holdings, prices))| as real
               + (if |holdings| > ManyHoldings then DiversificationWeight else 0.0)
  {
    AtMostOneConcentrated(holdings, prices);
  }

  /** `calculateAnomalyScore`: value the priced holdings, count the concentrated coins, add the size term, cap. */
  method CalculateAnomalyScore(holdings: seq<Holding>, prices: map<string, Cryptocurrency>) returns (score: real)
    ensures score == AnomalyScore(holdings, prices)
  {
    var totalValue, assetValues := ValueHoldings(holdings, prices);
    score := CountConcentrated(assetValues, totalValue);
    if |holdings| > ManyHoldings {
      score := score + DiversificationWeight;
    }
    if score > 1.0 {
      score := 1.0;
    }
  }

  /** The first loop of `calculateAnomalyScore`: the priced total and each priced coin's value. */
  method ValueHoldings(holdings: seq<Holding>, prices: map<string, Cryptocurrency>)
    returns (totalValue: real, assetValues: map<string, real>)
    ensures totalValue == TotalValue(holdings, prices)
    ensures assetValues == AssetValues(holdings, prices)
  {
    totalValue, assetValues := 0.0, map[];
    var i := 0;
    while i < |holdings|
      invariant 0 <= i <= |holdings|
      invariant totalValue == TotalValue(holdings[..i], prices)
      invariant assetValues == AssetValues(holdings[..i], prices)
    {
      assert holdings[..i + 1][..i] == holdings[..i];
      var h := holdings[i];
      if h.cryptoId in prices {
        var value := h.amount * prices[h.cryptoId].currentPrice;
        totalValue := totalValue + value;
        assetValues := assetValues[h.cryptoId := value];
      }
      i := i + 1;
    }
    assert holdings[..|holdings|] == holdings;
  }

  /** The second loop of `calculateAnomalyScore`: 0.3 for each coin above half of the total. */
  method CountConcentrated(assetValues: map<string, real>, totalValue: real) returns (score: real)
    ensures score == ConcentrationWeight * |Concentrated(assetValues, totalValue)| as real
  {
    ghost var concentrated := Concentrated(assetValues, totalValue);
    score := 0.0;
    var pending := assetValues.Keys;
    ghost var counted: set<string> := {};
    while pending != {}
      invariant pending <= assetValues.Keys
      invariant counted == concentrated - pending
      invariant score == ConcentrationWeight * |counted| as real
      decreases |pending|
    {
      var id :| id in pending;
      if totalValue > 0.0 && assetValues[id] / totalValue > 0.5 {
        assert id !in counted;
        score := score + ConcentrationWeight;
        counted := counted + {id};
      }
      pending := pending - {id};
    }
  }

  /** The loop of `getPortfolioAnalytics`: value and invested amount of the priced holdings. */
  method PricedTotals(holdings: seq<Holding>, prices: map<string, Cryptocurrency>)
    returns (totalValue: real, totalInvested: real)
    ensures totalValue == TotalValue(holdings, prices)
    ensures totalInvested == TotalInvested(holdings, prices)
  {
    totalValue, totalInvested := 0.0, 0.0;
    var i := 0;
    while i < |holdings|
      invariant 0 <= i <= |holdings|
      invariant totalValue == TotalValue(holdings[..i], prices)
      invariant totalInvested == TotalInvested(holdings[..i], prices)
    {
      assert holdings[..i + 1][..i] == holdings[..i];
      var h := holdings[i];
      if h.cryptoId in prices {
        totalValue := totalValue + h.amount * prices[h.cryptoId].currentPrice;
        totalInvested := totalInvested + h.totalInvested;
      }
      i := i + 1;
    }
    assert holdings[..|holdings|] == holdings;
  }

  // ---------------------------------------------------------------------
  // Security monitoring

  datatype SecurityEvent = SecurityEvent(eventType: string, timestamp: int, details: string, severity: string, source: string)

  const SecurityLogCap: nat := 1000
  /** One hour in milliseconds: the "recent" window of the metrics and the future-timestamp slack. */
  const HourMillis: int := 3_600_000

  function Timestamp(e: SecurityEvent): int
  {
    e.timestamp
  }

  /** How often `key` occurs in `keys`. */
  function CountOf(keys: seq<string>, key: string): (c: nat)
    ensures c <= |keys|
    ensures c > 0 <==> key in keys
    decreases |keys|
  {
    if |keys| == 0 then 0
    else
      var front := keys[..|keys| - 1];
      assert keys == front + [keys[|keys| - 1]];
      CountOf(front, key) + (if keys[|keys| - 1] == key then 1 else 0)
  }

  /** `groupingBy { ... }.eachCount()`: each key that occurs, with how often it occurs. */
  function EachCount(keys: seq<string>): (m: map<string, nat>)
    ensures forall k :: k in m <==> k in keys
    ensures forall k :: k in m ==> m[k] == CountOf(keys, k)
    decreases |keys|
  {
    if |keys| == 0 then map[]
    else
      var front := keys[..|keys| - 1];
      var k := keys[|keys| - 1];
      var rest := EachCount(front);
      assert keys == front + [k];
      rest[k := (if k in rest then rest[k] else 0) + 1]
  }

  function Severities(events: seq<SecurityEvent>): (r: seq<string>)
    ensures |r| == |events| && forall i :: 0 <= i < |r| ==> r[i] == events[i].severity
  {
    seq(|events|, i requires 0 <= i < |events| => events[i].severity)
  }

  function EventTypes(events: seq<SecurityEvent>): (r: seq<string>)
    ensures |r| == |events| && forall i :: 0 <= i < |r| ==> r[i] == events[i].eventType
  {
    seq(|events|, i requires 0 <= i < |events| => events[i].eventType)
  }

  /** The events logged less than an hour before `now`. */
  function RecentCount(events: seq<SecurityEvent>, now: int): (c: nat)
    ensures c <= |events|
    ensures c == 0 <==> forall i :: 0 <= i < |events| ==> now - events[i].timestamp >= HourMillis
    decreases |events|
  {
    if |events| == 0 then 0
    else
      var front := events[..|events| - 1];
      assert forall i :: 0 <= i < |front| ==> front[i] == events[i];
      RecentCount(front, now) + (if now - events[|events| - 1].timestamp < HourMillis then 1 else 0)
  }

  datatype SecurityMetrics = SecurityMetrics(severityCounts: map<string, nat>, typeCounts: map<string, nat>, recentEvents: nat)

  class SecurityMonitoringService {
    var securityEvents: seq<SecurityEvent>
    /** Every event logged since construction or the last reset. */
    ghost var logged: seq<SecurityEvent>

    ghost predicate Valid()
      reads this
    {
      securityEvents == KeepLast(logged, SecurityLogCap)
    }

    constructor ()
      ensures Valid() && logged == []
    {
      securityEvents, logged := [], [];
    }

    /** `logSecurityEvent`: append, then clear the oldest surplus beyond 1000. */
    method LogSecurityEvent(eventType: string, details: string, severity: string, source: string, now: int)
      requires Valid()
      modifies this
      ensures Valid() && |securityEvents| <= SecurityLogCap
      ensures logged == old(logged) + [SecurityEvent(eventType, now, details, severity, source)]
    {
      var event := SecurityEvent(eventType, now, details, severity, source);
      KeepLastPush(logged, event, SecurityLogCap);
      securityEvents := securityEvents + [event];
      if |securityEvents| > SecurityLogCap {
        securityEvents := securityEvents[|securityEvents| - SecurityLogCap..];
      }
      logged := logged + [event];
    }

    /** `getRecentSecurityEvents`: at most `limit` logged events, newest first. */
    function RecentSecurityEvents(limit: nat): (r: seq<SecurityEvent>)
      reads this
      ensures |r| <= limit && |r| <= |securityEvents|
      ensures forall i, j :: 0 <= i < j < |r| ==> r[i].timestamp >= r[j].timestamp
      ensures multiset(r) <= multiset(securityEvents)
      ensures |r| == if limit < |securityEvents| then limit else |securityEvents|
      ensures forall x, y :: x in r && y in multiset(securityEvents) - multiset(r) ==> x.timestamp >= y.timestamp
    {
      NewestFirstDominates(securityEvents, Timestamp, limit);
      NewestFirst(securityEvents, Timestamp, limit)
    }

    /** `getSecurityMetrics`: events per severity and per type, and how many are under an hour old. */
    function Metrics(now: int): (m: SecurityMetrics)
      reads this
      ensures forall s :: s in m.severityCounts <==> exists i :: 0 <= i < |securityEvents| && securityEvents[i].severity == s
      ensures forall t :: t in m.typeCounts <==> exists i :: 0 <= i < |securityEvents| && securityEvents[i].eventType == t
      ensures m.recentEvents <= |securityEvents|
      ensures forall s :: s in m.severityCounts ==> m.severityCounts[s] == CountOf(Severities(securityEvents), s)
      ensures forall t :: t in m.typeCounts ==> m.typeCounts[t] == CountOf(EventTypes(securityEvents), t)
      ensures m.recentEvents == RecentCount(securityEvents, now)
    {
      SecurityMetrics(EachCount(Severities(securityEvents)), EachCount(EventTypes(securityEvents)),
                      RecentCount(securityEvents, now))
    }

    method Reset()
      modifies this
      ensures Valid() && securityEvents == [] && logged == []
    {
      securityEvents, logged := [], [];
    }
  }

  // ---------------------------------------------------------------------
  // Validation of market data and transactions

  const ExtremeChange: real := 50.0
  const LargeAmount: real := 1000000.0

  predicate IsExtreme(c: Cryptocurrency)
  {
    Stats.Abs(c.priceChangePercentage24h) > ExtremeChange
  }

  /** The coins whose daily change exceeds 50% either way, in order and with their multiplicities. */
  function ExtremeMovers(cryptos: seq<Cryptocurrency>): seq<Cryptocurrency>
    decreases |cryptos|
  {
    if |cryptos| == 0 then []
    else
      var c := cryptos[|cryptos| - 1];
      ExtremeMovers(cryptos[..|cryptos| - 1]) + (if IsExtreme(c) then [c] else [])
  }

  /** Each extreme coin is selected as often as it occurs, and no other coin is. */
  lemma {:induction false} ExtremeMoversSelect(cryptos: seq<Cryptocurrency>)
    ensures forall c :: multiset(ExtremeMovers(cryptos))[c] == if IsExtreme(c) then multiset(cryptos)[c] else 0
    decreases |cryptos|
  {
    if |cryptos| > 0 {
      var front := cryptos[..|cryptos| - 1];
      assert cryptos == front + [cryptos[|cryptos| - 1]];
      ExtremeMoversSelect(front);
    }
  }

  function ExtremeChangeEvent(c: Cryptocurrency, show: real -> string, now: int): SecurityEvent
  {
    SecurityEvent("extreme_price_change", now,
                  "Extreme price change for " + c.name + ": " + show(c.priceChangePercentage24h) + "%",
                  "medium", "MarketData")
  }

  /** One warning per extreme mover, in list order. */
  function ExtremeChangeEvents(cryptos: seq<Cryptocurrency>, show: real -> string, now: int): seq<SecurityEvent>
    decreases |cryptos|
  {
    if |cryptos| == 0 then []
    else
      var c := cryptos[|cryptos| - 1];
      ExtremeChangeEvents(cryptos[..|cryptos| - 1], show, now) + (if IsExtreme(c) then [ExtremeChangeEvent(c, show, now)] else [])
  }

  /** The warnings are exactly one per extreme mover, in the movers' order. */
  lemma {:induction false} ExtremeChangeEventsPerMover(cryptos: seq<Cryptocurrency>, show: real -> string, now: int)
    ensures |ExtremeChangeEvents(cryptos, show, now)| == |ExtremeMovers(cryptos)|
    ensures forall i :: 0 <= i < |ExtremeMovers(cryptos)| ==>
      ExtremeChangeEvents(cryptos, show, now)[i] == ExtremeChangeEvent(ExtremeMovers(cryptos)[i], show, now)
    decreases |cryptos|
  {
    if |cryptos| > 0 {
      ExtremeChangeEventsPerMover(cryptos[..|cryptos| - 1], show, now);
    }
  }

  /** One more coin adds its warning, if it is an extreme mover, at the end. */
  lemma ExtremeChangeEventsStep(cryptos: seq<Cryptocurrency>, i: nat, show: real -> string, now: int)
    requires i < |cryptos|
    ensures ExtremeChangeEvents(cryptos[..i + 1], show, now)
         == ExtremeChangeEvents(cryptos[..i], show, now)
            + (if IsExtreme(cryptos[i]) then [ExtremeChangeEvent(cryptos[i], show, now)] else [])
  {
    assert cryptos[..i + 1][..i] == cryptos[..i];
  }

  function Ids(cryptos: seq<Cryptocurrency>): set<string>
  {
    set i | 0 <= i < |cryptos| :: cryptos[i].id
  }

  predicate DistinctIds(cryptos: seq<Cryptocurrency>)
  {
    forall i, j :: 0 <= i < j < |cryptos| ==> cryptos[i].id != cryptos[j].id
  }

  /** The ids of a list are the ids of all but its last coin, plus the last coin's id. */
  lemma IdsSnoc(cryptos: seq<Cryptocurrency>)
    requires |cryptos| > 0
    ensures Ids(cryptos) == Ids(cryptos[..|cryptos| - 1]) + {cryptos[|cryptos| - 1].id}
  {
    var front := cryptos[..|cryptos| - 1];
    forall id | id in Ids(cryptos)
      ensures id in Ids(front) + {cryptos[|cryptos| - 1].id}
    {
      var i :| 0 <= i < |cryptos| && cryptos[i].id == id;
      if i < |cryptos| - 1 {
        assert front[i].id == id;
      }
    }
    forall id | id in Ids(front)
      ensures id in Ids(cryptos)
    {
      var i :| 0 <= i < |front| && front[i].id == id;
      assert cryptos[i].id == id;
    }
  }

  /** A list has distinct ids exactly when its front does and the last id is new. */
  lemma DistinctIdsSnoc(cryptos: seq<Cryptocurrency>)
    requires |cryptos| > 0
    ensures DistinctIds(cryptos) <==>
      DistinctIds(cryptos[..|cryptos| - 1]) && cryptos[|cryptos| - 1].id !in Ids(cryptos[..|cryptos| - 1])
  {
    var front := cryptos[..|cryptos| - 1];
    var c := cryptos[|cryptos| - 1];
    if c.id in Ids(front) {
      var k :| 0 <= k < |front| && front[k].id == c.id;
      assert cryptos[k].id == cryptos[|cryptos| - 1].id;
    } else if DistinctIds(front) {
      forall i, j | 0 <= i < j < |cryptos|
        ensures cryptos[i].id != cryptos[j].id
      {
        if j == |cryptos| - 1 {
          assert front[i].id in Ids(front);
        } else {
          assert front[i] == cryptos[i] && front[j] == cryptos[j];
        }
      }
    } else {
      var i, j :| 0 <= i < j < |front| && front[i].id == front[j].id;
      assert cryptos[i].id == cryptos[j].id;
    }
  }

  /** Comparing the size of the id set with the list size detects exactly a repeated id. */
  lemma {:induction false} IdSetSize(cryptos: seq<Cryptocurrency>)
    ensures |Ids(cryptos)| <= |cryptos|
    ensures |Ids(cryptos)| == |cryptos| <==> DistinctIds(cryptos)
    decreases |cryptos|
  {
    if |cryptos| > 0 {
      var front := cryptos[..|cryptos| - 1];
      IdSetSize(front);
      IdsSnoc(cryptos);
      DistinctIdsSnoc(cryptos);
    }
  }

  function DuplicateData(now: int): SecurityEvent
  {
    SecurityEvent("duplicate_data", now, "Duplicate cryptocurrency entries detected", "high", "MarketData")
  }

  /** What `validateMarketData` logs: the extreme movers in order, then one duplicate warning when ids repeat. */
  function MarketDataEvents(cryptos: seq<Cryptocurrency>, show: real -> string, now: int): (r: seq<SecurityEvent>)
    ensures DistinctIds(cryptos) ==> r == ExtremeChangeEvents(cryptos, show, now)
    ensures !DistinctIds(cryptos) ==> r == ExtremeChangeEvents(cryptos, show, now) + [DuplicateData(now)]
  {
    IdSetSize(cryptos);
    ExtremeChangeEvents(cryptos, show, now) + (if |Ids(cryptos)| != |cryptos| then [DuplicateData(now)] else [])
  }

  /** What `validateTransaction` logs from the amount: a large or a negative amount, never both. */
  function AmountEvents(tx: Transaction, show: real -> string, now: int): (r: seq<SecurityEvent>)
    ensures |r| <= 1
    ensures |r| == 1 <==> tx.amount > LargeAmount || tx.amount < 0.0
    ensures |r| == 1 ==> (r[0].eventType == "large_transaction" <==> tx.amount > LargeAmount)
  {
    (if tx.amount > LargeAmount then
       [SecurityEvent("large_transaction", now, "Large transaction amount: " + show(tx.amount) + " " + tx.symbol,
                      "medium", "Transaction")]
     else [])
    + (if tx.amount < 0.0 then
         [SecurityEvent("negative_amount", now, "Negative transaction amount: " + show(tx.amount), "high", "Transaction")]
       else [])
  }

  /**
   * The timestamp check of `validateTransaction`: a warning when the parsed time
   * is more than an hour ahead of `now`; an error when `toLong` rejects it.
   */
  function TimestampEvents(tx: Transaction, parseLong: string -> Option<int>, now: int): (r: Result<seq<SecurityEvent>, string>)
    ensures r.Err? <==> parseLong(tx.timestamp).None?
    ensures r.Ok? ==> (|r.value| == 1 <==> parseLong(tx.timestamp).value > now + HourMillis) && |r.value| <= 1
  {
    match parseLong(tx.timestamp)
    case None => Err("NumberFormatException")
    case Some(t) =>
      Ok(if t > now + HourMillis then
           [SecurityEvent("future_timestamp", now, "Transaction with future timestamp: " + tx.timestamp, "medium", "Transaction")]
         else [])
  }

  // ---------------------------------------------------------------------
  // The repository with security monitoring

  /** Log one more event after `logged`, keeping the record as history plus what was added. */
  method LogAppends(monitor: SecurityMonitoringService, ghost history: seq<SecurityEvent>, ghost added: seq<SecurityEvent>, e: SecurityEvent)
    requires monitor.Valid() && monitor.logged == history + added
    modifies monitor
    ensures monitor.Valid() && monitor.logged == history + (added + [e])
  {
    monitor.LogSecurityEvent(e.eventType, e.details, e.severity, e.source, e.timestamp);
    assert monitor.logged == history + added + [e];
  }

  datatype PortfolioAnalytics = PortfolioAnalytics(totalValue: real, totalProfitLoss: real, profitLossPercentage: real,
                                                   holdingsCount: nat, securityMetrics: SecurityMetrics,
                                                   recentSecurityEvents: seq<SecurityEvent>, anomalyScore: real)

  const RecentEventsShown: nat := 10

  class EnhancedCryptoRepository {
    const monitor: SecurityMonitoringService
    const holdingsTable: HoldingsTable
    /** The coin table, one row per id. */
    var cryptocurrencies: map<string, Cryptocurrency>
    var transactions: seq<Transaction>

    ghost predicate Valid()
      reads this, monitor, holdingsTable
    {
      monitor.Valid() && holdingsTable.Valid()
    }

    constructor (monitor: SecurityMonitoringService, holdingsTable: HoldingsTable)
      ensures this.monitor == monitor && this.holdingsTable == holdingsTable
      ensures cryptocurrencies == map[] && transactions == []
    {
      this.monitor := monitor;
      this.holdingsTable := holdingsTable;
      cryptocurrencies := map[];
      transactions := [];
    }

    /** `validateMarketData`: one warning per extreme mover, then the duplicate-id check. */
    method ValidateMarketData(cryptos: seq<Cryptocurrency>, show: real -> string, now: int)
      requires monitor.Valid()
      modifies monitor
      ensures monitor.Valid()
      ensures monitor.logged == old(monitor.logged) + MarketDataEvents(cryptos, show, now)
    {
      WarnExtremeChanges(cryptos, show, now);
      var uniqueIds := Ids(cryptos);
      if |uniqueIds| != |cryptos| {
        LogAppends(monitor, old(monitor.logged), ExtremeChangeEvents(cryptos, show, now), DuplicateData(now));
      }
    }

    /** The first loop of `validateMarketData`: a warning for each extreme mover, in order. */
    method WarnExtremeChanges(cryptos: seq<Cryptocurrency>, show: real -> string, now: int)
      requires monitor.Valid()
      modifies monitor
      ensures monitor.Valid()
      ensures monitor.logged == old(monitor.logged) + ExtremeChangeEvents(cryptos, show, now)
    {
      var i := 0;
      while i < |cryptos|
        invariant 0 <= i <= |cryptos|
        invariant monitor.Valid()
        invariant monitor.logged == old(monitor.logged) + ExtremeChangeEvents(cryptos[..i], show, now)
      {
        var crypto := cryptos[i];
        ExtremeChangeEventsStep(cryptos, i, show, now);
        if IsExtreme(crypto) {
          var e := ExtremeChangeEvent(crypto, show, now);
          LogAppends(monitor, old(monitor.logged), ExtremeChangeEvents(cryptos[..i], show, now), e);
        }
        i := i + 1;
      }
      assert cryptos[..|cryptos|] == cryptos;
    }

    /**
     * `refreshMarketData`: a fetched list is checked and then replaces the coin
     * table; a failed fetch is logged and reported.
     */
    method RefreshMarketData(response: Result<seq<Cryptocurrency>, string>, show: real -> string, now: int)
      returns (r: Result<(), string>)
      requires monitor.Valid()
      modifies this, monitor
      ensures monitor.Valid() && transactions == old(transactions)
      ensures response.Ok? ==> r == Ok(()) && cryptocurrencies == PriceTable(response.value)
                               && monitor.logged == old(monitor.logged) + MarketDataEvents(response.value, show, now)
      ensures response.Err? ==> r == Err(response.error) && cryptocurrencies == old(cryptocurrencies)
                                && monitor.logged == old(monitor.logged)
                                   + [SecurityEvent("market_data_error", now, "Failed to refresh market data: " + response.error,
                                                    "medium", "CoinGeckoApi")]
    {
      match response {
        case Ok(coins) =>
          ValidateMarketData(coins, show, now);
          cryptocurrencies := PriceTable(coins);
          r := Ok(());
        case Err(message) =>
          monitor.LogSecurityEvent("market_data_error", "Failed to refresh market data: " + message, "medium", "CoinGeckoApi", now);
          r := Err(message);
      }
    }

    /** `validateTransaction`: the amount warnings, then the timestamp check, which throws on a bad timestamp. */
    method ValidateTransaction(tx: Transaction, show: real -> string, parseLong: string -> Option<int>, now: int)
      returns (r: Result<(), string>)
      requires monitor.Valid()
      modifies monitor
      ensures monitor.Valid()
      ensures r.Ok? <==> TimestampEvents(tx, parseLong, now).Ok?
      ensures r.Err? ==> r.error == TimestampEvents(tx, parseLong, now).error
      ensures monitor.logged == old(monitor.logged) + AmountEvents(tx, show, now)
                                + (if r.Ok? then TimestampEvents(tx, parseLong, now).value else [])
    {
      if tx.amount > LargeAmount {
        monitor.LogSecurityEvent("large_transaction", "Large transaction amount: " + show(tx.amount) + " " + tx.symbol,
                                 "medium", "Transaction", now);
      }
      if tx.amount < 0.0 {
        monitor.LogSecurityEvent("negative_amount", "Negative transaction amount: " + show(tx.amount), "high", "Transaction", now);
      }
      assert monitor.logged == old(monitor.logged) + AmountEvents(tx, show, now);
      var parsed := parseLong(tx.timestamp);
      if parsed.None? {
        return Err("NumberFormatException");
      }
      if parsed.value > now + HourMillis {
        monitor.LogSecurityEvent("future_timestamp", "Transaction with future timestamp: " + tx.timestamp,
                                 "medium", "Transaction", now);
      }
      r := Ok(());
    }

    /**
     * `addTransaction`: validate (which throws when the timestamp does not
     * parse), then store the transaction and update the holding.
     */
    method AddTransaction(tx: Transaction, show: real -> string, parseLong: string -> Option<int>, now: int)
      returns (r: Result<(), string>)
      requires Valid()
      modifies this, monitor, holdingsTable
      ensures Valid() && cryptocurrencies == old(cryptocurrencies)
      ensures r.Ok? <==> parseLong(tx.timestamp).Some?
      ensures r.Ok? ==> transactions == old(transactions) + [tx]
                        && holdingsTable.rows == Applied(old(holdingsTable.rows), tx)
                        && monitor.logged == old(monitor.logged) + AmountEvents(tx, show, now)
                                             + TimestampEvents(tx, parseLong, now).value
      ensures r.Err? ==> transactions == old(transactions) && holdingsTable.rows == old(holdingsTable.rows)
                         && monitor.logged == old(monitor.logged) + AmountEvents(tx, show, now)
    {
      r := ValidateTransaction(tx, show, parseLong, now);
      if r.Ok? {
        transactions := transactions + [tx];
        UpdatePortfolioHolding(holdingsTable, tx);
      }
    }

    /**
     * `getPortfolioAnalytics` over the rows the holdings query returned: the
     * same totals as the portfolio screen, the log's metrics and ten newest
     * events, and the anomaly score.
     */
    method GetPortfolioAnalytics(holdings: seq<Holding>, now: int) returns (a: PortfolioAnalytics)
      ensures a.totalValue == TotalValue(holdings, cryptocurrencies)
      ensures a.totalProfitLoss == a.totalValue - TotalInvested(holdings, cryptocurrencies)
      ensures a.profitLossPercentage == ProfitLossPercentage(a.totalValue, TotalInvested(holdings, cryptocurrencies))
      ensures a.holdingsCount == |holdings|
      ensures a.securityMetrics == monitor.Metrics(now)
      ensures a.recentSecurityEvents == monitor.RecentSecurityEvents(RecentEventsShown)
      ensures a.anomalyScore == AnomalyScore(holdings, cryptocurrencies)
    {
      var totalValue, totalInvested := PricedTotals(holdings, cryptocurrencies);
      var totalProfitLoss := totalValue - totalInvested;
      var profitLossPercentage := ProfitLossPercentage(totalValue, totalInvested);
      var anomalyScore := CalculateAnomalyScore(holdings, cryptocurrencies);
      a := PortfolioAnalytics(totalValue, totalProfitLoss, profitLossPercentage, |holdings|,
                              monitor.Metrics(now), monitor.RecentSecurityEvents(RecentEventsShown), anomalyScore);
    }
  }
}
