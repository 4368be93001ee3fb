/** The pump-score heuristic of `analyze_symbol`: indicators computed from a
    candle window and an order-book snapshot, three threshold rules, a score
    capped at 1.0 and the ordered list of explanations for the rules that
    fired. The exchange's answers are parameters; a fetch that raised is
    `None`. */
module PumpAnalyzer {
  import opened Numerics

  /** One kline; only the close price and the volume are read. */
  datatype Candle = Candle(close: real, volume: real)

  datatype Level = Level(price: real, quantity: real)

  datatype OrderBook = OrderBook(bids: seq<Level>, asks: seq<Level>)

  /** What the exchange returned for one symbol. */
  datatype Market = Market(klines: Option<seq<Candle>>, book: Option<OrderBook>)

  /** The exceptions `analyze_symbol` lets escape, in the order it can meet them. */
  datatype Error =
    | CandleFetchFailed  // the kline request raised (HTTP status, timeout, bad payload)
    | NoCandles          // `volumes[-1]` on an empty list
    | ZeroFirstClose     // Python float division by `closes[0] == 0`
    | BookFetchFailed    // the order-book request raised
    | NoBids             // an empty side is a 1-D numpy array; `[:10, 1]` raises
    | NoAsks

  datatype Result<T> = Ok(value: T) | Err(error: Error)

  /** One explanation per fired rule; the number it carries is the one the
      message text formats. */
  datatype Explanation = VolumeGrew(ratio: real) | PriceRising(change: real) | BidsDominate

  datatype Report = Report(
    score: real,
    explanations: seq<Explanation>,
    volumeRatio: real,
    priceChange: real,
    imbalance: Ext)

  const VolumeThreshold: real := 2.0
  const VolumeWeight: real := 0.4
  const PriceThreshold: real := 0.01
  const PriceWeight: real := 0.3
  const ImbalanceThreshold: real := 0.2
  const ImbalanceWeight: real := 0.3
  const ScoreCap: real := 1.0
  /** Number of order-book levels per side that count towards liquidity. */
  const BookDepth: nat := 10

  // ---- candles ----

  function Volumes(klines: seq<Candle>): seq<real>
  {
    seq(|klines|, k requires 0 <= k < |klines| => klines[k].volume)
  }

  function Closes(klines: seq<Candle>): seq<real>
  {
    seq(|klines|, k requires 0 <= k < |klines| => klines[k].close)
  }

  /** Last volume over the mean of all the earlier ones; 0 when that mean is
      not positive or, with a single candle, undefined (NaN). Stated without
      the mean: with `n` earlier candles whose volumes add up to a positive
      `total`, ratio * total == last * n. */
  function VolumeRatio(volumes: seq<real>): (r: real)
    requires |volumes| > 0
    ensures var prior := volumes[..|volumes| - 1];
            if Sum(prior) > 0.0 && |prior| > 0
            then r * Sum(prior) == volumes[|volumes| - 1] * (|prior| as real)
            else r == 0.0
  {
    var prior := volumes[..|volumes| - 1];
    var avg := Mean(prior);
    assert |prior| > 0 ==> (avg.value > 0.0 <==> Sum(prior) > 0.0) by {
      if |prior| > 0 {
        assert avg.value * (|prior| as real) == Sum(prior);
      }
    }
    if avg.Some? && avg.value > 0.0 then volumes[|volumes| - 1] / avg.value else 0.0
  }

  lemma VolumeRatioNonNegative(volumes: seq<real>)
    requires |volumes| > 0
    requires forall k :: 0 <= k < |volumes| ==> volumes[k] >= 0.0
    ensures VolumeRatio(volumes) >= 0.0
  {
    var prior := volumes[..|volumes| - 1];
    SumNonNegative(prior);
  }

  /** A larger last volume, everything else equal, never lowers the ratio. */
  lemma VolumeRatioMonotone(prior: seq<real>, last: real, larger: real)
    requires last <= larger
    ensures VolumeRatio(prior + [last]) <= VolumeRatio(prior + [larger])
  {
    assert (prior + [last])[..|prior|] == prior;
    assert (prior + [larger])[..|prior|] == prior;
    var avg := Mean(prior);
    if avg.Some? && avg.value > 0.0 {
      assert last / avg.value <= larger / avg.value;
    }
  }

  /** Relative change from the first close to the last one. */
  function PriceChange(closes: seq<real>): (r: real)
    requires |closes| > 0 && closes[0] != 0.0
    ensures r * closes[0] == closes[|closes| - 1] - closes[0]
  {
    (closes[|closes| - 1] - closes[0]) / closes[0]
  }

  /** For a positive first close the price rule fires exactly when the last
      close is more than 1% above the first. */
  lemma PriceRuleMeaning(closes: seq<real>)
    requires |closes| > 0 && closes[0] > 0.0
    ensures PriceChange(closes) > PriceThreshold <==> closes[|closes| - 1] > closes[0] * (1.0 + PriceThreshold)
  {
    var r := PriceChange(closes);
    var first, last := closes[0], closes[|closes| - 1];
    assert r * first == last - first;
    if r > PriceThreshold {
      assert r * first > PriceThreshold * first;
    } else {
      assert r * first <= PriceThreshold * first;
    }
  }

  // ---- order book ----

  function Quantities(levels: seq<Level>): seq<real>
  {
    seq(|levels|, k requires 0 <= k < |levels| => levels[k].quantity)
  }

  /** Sum of the quantities of at most the first `BookDepth` levels; never
      negative when no level has a negative quantity. */
  function TopLiquidity(levels: seq<Level>): (r: real)
    ensures (forall k :: 0 <= k < |levels| ==> levels[k].quantity >= 0.0) ==> r >= 0.0
  {
    var q := Quantities(if |levels| <= BookDepth then levels else levels[..BookDepth]);
    SumNonNegative(q);
    Sum(q)
  }

  /** Levels past the first ten never change the liquidity. */
  lemma TopLiquidityIgnoresDeepLevels(levels: seq<Level>, deeper: seq<Level>)
    requires |levels| >= BookDepth
    ensures TopLiquidity(levels + deeper) == TopLiquidity(levels)
  {
    var all := levels + deeper;
    if |all| <= BookDepth {
      assert deeper == [] && all == levels;
    } else {
      assert all[..BookDepth] == levels[..BookDepth];
      if |levels| == BookDepth {
        assert levels[..BookDepth] == levels;
      }
    }
  }

  /** (bid - ask) / (bid + ask) as a float64 division: with some total
      liquidity, the value times the total is the difference; with none,
      +inf, -inf or NaN by which side is larger. */
  function Imbalance(bidLiquidity: real, askLiquidity: real): (r: Ext)
    ensures bidLiquidity + askLiquidity != 0.0 ==>
              r.Finite? && r.v * (bidLiquidity + askLiquidity) == bidLiquidity - askLiquidity
    ensures bidLiquidity + askLiquidity == 0.0 ==>
              r == (if bidLiquidity > askLiquidity then PosInf
                    else if bidLiquidity < askLiquidity then NegInf
                    else NaN)
  {
    Divide(bidLiquidity - askLiquidity, bidLiquidity + askLiquidity)
  }

  /** The sign of `x` follows the sign of `x * t` for a positive `t`. */
  lemma FactorSign(x: real, t: real)
    requires t > 0.0
    ensures x * t >= 0.0 ==> x >= 0.0
    ensures x * t > 0.0 <==> x > 0.0
  {
  }

  /** With non-negative sides and some liquidity the imbalance is a finite
      value in [-1, 1], positive exactly when bids outweigh asks. */
  lemma ImbalanceRange(bidLiquidity: real, askLiquidity: real)
    requires bidLiquidity >= 0.0 && askLiquidity >= 0.0 && bidLiquidity + askLiquidity > 0.0
    ensures Imbalance(bidLiquidity, askLiquidity).Finite?
    ensures -1.0 <= Imbalance(bidLiquidity, askLiquidity).v <= 1.0
    ensures Imbalance(bidLiquidity, askLiquidity).v > 0.0 <==> bidLiquidity > askLiquidity
  {
    var total := bidLiquidity + askLiquidity;
    var v := Imbalance(bidLiquidity, askLiquidity).v;
    assert v * total == bidLiquidity - askLiquidity;
    assert (1.0 - v) * total == 2.0 * askLiquidity;
    assert (v + 1.0) * total == 2.0 * bidLiquidity;
    FactorSign(1.0 - v, total);
    FactorSign(v + 1.0, total);
    FactorSign(v, total);
  }

  /** An empty book (both sides zero) gives NaN, so the order-book rule
      cannot fire. */
  lemma ImbalanceOfEmptyLiquidity()
    ensures Imbalance(0.0, 0.0) == NaN
    ensures !GreaterThan(Imbalance(0.0, 0.0), ImbalanceThreshold)
  {
  }

  // ---- pump score ----

  predicate VolumeRule(volumeRatio: real) { volumeRatio > VolumeThreshold }
  predicate PriceRule(priceChange: real) { priceChange > PriceThreshold }
  predicate BookRule(imbalance: Ext) { GreaterThan(imbalance, ImbalanceThreshold) }

  function Weight(e: Explanation): real
  {
    match e
    case VolumeGrew(_) => VolumeWeight
    case PriceRising(_) => PriceWeight
    case BidsDominate => ImbalanceWeight
  }

  /** Position of an explanation's rule in the fixed rule order. */
  function Rank(e: Explanation): nat
  {
    match e
    case VolumeGrew(_) => 0
    case PriceRising(_) => 1
    case BidsDominate => 2
  }

  function TotalWeight(es: seq<Explanation>): real
  {
    if es == [] then 0.0 else Weight(es[0]) + TotalWeight(es[1..])
  }

  function FiredCount(volumeRatio: real, priceChange: real, imbalance: Ext): nat
  {
    (if VolumeRule(volumeRatio) then 1 else 0)
    + (if PriceRule(priceChange) then 1 else 0)
    + (if BookRule(imbalance) then 1 else 0)
  }

  /** The explanations of the fired rules: one each, in the order volume,
      price, order book. */
  function Explanations(volumeRatio: real, priceChange: real, imbalance: Ext): (r: seq<Explanation>)
    ensures |r| == FiredCount(volumeRatio, priceChange, imbalance)
    ensures VolumeGrew(volumeRatio) in r <==> VolumeRule(volumeRatio)
    ensures PriceRising(priceChange) in r <==> PriceRule(priceChange)
    ensures BidsDominate in r <==> BookRule(imbalance)
    ensures forall i, j :: 0 <= i < j < |r| ==> Rank(r[i]) < Rank(r[j])
    ensures r == [] <==> !VolumeRule(volumeRatio) && !PriceRule(priceChange) && !BookRule(imbalance)
  {
    (if VolumeRule(volumeRatio) then [VolumeGrew(volumeRatio)] else [])
    + (if PriceRule(priceChange) then [PriceRising(priceChange)] else [])
    + (if BookRule(imbalance) then [BidsDominate] else [])
  }

  /** The fired rules' weights, capped at `ScoreCap`. */
  function PumpScore(volumeRatio: real, priceChange: real, imbalance: Ext): (r: real)
    ensures 0.0 <= r <= 1.0
    ensures r == 0.0 <==> !VolumeRule(volumeRatio) && !PriceRule(priceChange) && !BookRule(imbalance)
  {
    Min((if VolumeRule(volumeRatio) then VolumeWeight else 0.0)
        + (if PriceRule(priceChange) then PriceWeight else 0.0)
        + (if BookRule(imbalance) then ImbalanceWeight else 0.0),
        ScoreCap)
  }

  lemma {:induction false} TotalWeightAppend(a: seq<Explanation>, b: seq<Explanation>)
    ensures TotalWeight(a + b) == TotalWeight(a) + TotalWeight(b)
  {
    if a == [] {
      assert a + b == b;
    } else {
      assert (a + b)[1..] == a[1..] + b;
      TotalWeightAppend(a[1..], b);
    }
  }

  /** The score is the total weight of the explanations listed beside it,
      and over exact arithmetic the cap never cuts it. */
  lemma ScoreIsWeightOfExplanations(volumeRatio: real, priceChange: real, imbalance: Ext)
    ensures TotalWeight(Explanations(volumeRatio, priceChange, imbalance)) <= ScoreCap
    ensures PumpScore(volumeRatio, priceChange, imbalance) == TotalWeight(Explanations(volumeRatio, priceChange, imbalance))
  {
    var v: seq<Explanation> := if VolumeRule(volumeRatio) then [VolumeGrew(volumeRatio)] else [];
    var p: seq<Explanation> := if PriceRule(priceChange) then [PriceRising(priceChange)] else [];
    var b: seq<Explanation> := if BookRule(imbalance) then [BidsDominate] else [];
    TotalWeightAppend(v, p);
    TotalWeightAppend(v + p, b);
  }

  // ---- analyze_symbol ----

  /** `analyze_symbol` as a value: the first exception it would raise, or
      its report. */
  function Analysis(market: Market): (r: Result<Report>)
    ensures r.Ok? <==>
      market.klines.Some? && |market.klines.value| > 0 && market.klines.value[0].close != 0.0
      && market.book.Some? && |market.book.value.bids| > 0 && |market.book.value.asks| > 0
    ensures r.Ok? ==> 0.0 <= r.value.score <= 1.0
    ensures r.Ok? ==> |r.value.explanations| <= 3
  {
    if market.klines.None? then Err(CandleFetchFailed)
    else if |market.klines.value| == 0 then Err(NoCandles)
    else if market.klines.value[0].close == 0.0 then Err(ZeroFirstClose)
    else if market.book.None? then Err(BookFetchFailed)
    else if |market.book.value.bids| == 0 then Err(NoBids)
    else if |market.book.value.asks| == 0 then Err(NoAsks)
    else
      var volumeRatio := VolumeRatio(Volumes(market.klines.value));
      var priceChange := PriceChange(Closes(market.klines.value));
      var imbalance := Imbalance(TopLiquidity(market.book.value.bids), TopLiquidity(market.book.value.asks));
      Ok(Report(
        PumpScore(volumeRatio, priceChange, imbalance),
        Explanations(volumeRatio, priceChange, imbalance),
        volumeRatio, priceChange, imbalance))
  }

  /** The errors come in the order the source meets them: a kline problem
      hides any order-book problem. */
  lemma CandleErrorsFirst(market: Market)
    requires market.klines.None? || |market.klines.value| == 0 || market.klines.value[0].close == 0.0
    ensures Analysis(market).Err?
    ensures Analysis(market).error in {CandleFetchFailed, NoCandles, ZeroFirstClose}
  {
  }

  /** Four quiet candles and a fifth with five times their volume, a flat
      price, and a book with 80 units bid against 20 asked: the volume and
      order-book rules fire, the price rule does not. */
  lemma ExampleVolumeSpikeWithBidWall()
    ensures var flat := [Candle(1.0, 10.0), Candle(1.0, 10.0), Candle(1.0, 10.0), Candle(1.0, 10.0)];
            var r := Analysis(Market(Some(flat + [Candle(1.0, 50.0)]),
                                     Some(OrderBook([Level(1.0, 80.0)], [Level(1.1, 20.0)]))));
            && r.Ok?
            && r.value.volumeRatio == 5.0
            && r.value.priceChange == 0.0
            && r.value.imbalance == Finite(0.6)
            && r.value.explanations == [VolumeGrew(5.0), BidsDominate]
            && r.value.score == 0.7
  {
    var flat := [Candle(1.0, 10.0), Candle(1.0, 10.0), Candle(1.0, 10.0), Candle(1.0, 10.0)];
    var klines := flat + [Candle(1.0, 50.0)];
    var volumes := Volumes(klines);
    var prior := [10.0, 10.0, 10.0, 10.0];
    assert volumes[..4] == prior;
    assert prior[1..] == [10.0, 10.0, 10.0] && prior[1..][1..] == [10.0, 10.0] && prior[1..][1..][1..] == [10.0];
    assert Sum([10.0]) == 10.0;
    assert Sum([10.0, 10.0]) == 20.0;
    assert Sum([10.0, 10.0, 10.0]) == 30.0;
    assert Sum(prior) == 40.0;
    assert VolumeRatio(volumes) == 5.0;
    assert Quantities([Level(1.0, 80.0)]) == [80.0];
    assert Quantities([Level(1.1, 20.0)]) == [20.0];
    assert Sum([80.0]) == 80.0 by { assert [80.0][1..] == []; }
    assert Sum([20.0]) == 20.0 by { assert [20.0][1..] == []; }
    assert TopLiquidity([Level(1.0, 80.0)]) == 80.0;
    assert TopLiquidity([Level(1.1, 20.0)]) == 20.0;
    assert Imbalance(80.0, 20.0) == Finite(0.6);
    var closes := Closes(klines);
    assert PriceChange(closes) == 0.0;
    assert Explanations(5.0, 0.0, Finite(0.6)) == [VolumeGrew(5.0), BidsDominate];
    assert PumpScore(5.0, 0.0, Finite(0.6)) == 0.7;
  }

  /** The indicators of a successful analysis, then the score built up rule
      by rule and the explanations appended as each rule fires. */
  method AnalyzeSymbol(market: Market) returns (r: Result<Report>)
    ensures r == Analysis(market)
  {
    if market.klines.None? {
      return Err(CandleFetchFailed);
    }
    var klines := market.klines.value;
    var volumes := Volumes(klines);
    var closes := Closes(klines);
    if |volumes| == 0 {
      return Err(NoCandles);
    }
    var volumeRatio := VolumeRatio(volumes);
    if closes[0] == 0.0 {
      return Err(ZeroFirstClose);
    }
    var priceChange := PriceChange(closes);

    if market.book.None? {
      return Err(BookFetchFailed);
    }
    var bids, asks := market.book.value.bids, market.book.value.asks;
    if |bids| == 0 {
      return Err(NoBids);
    }
    if |asks| == 0 {
      return Err(NoAsks);
    }
    var bidLiquidity := TopLiquidity(bids);
    var askLiquidity := TopLiquidity(asks);
    var imbalance := Imbalance(bidLiquidity, askLiquidity);

    var score := 0.0;
    var explanations: seq<Explanation> := [];
    if volumeRatio > VolumeThreshold {
      score := score + VolumeWeight;
      explanations := explanations + [VolumeGrew(volumeRatio)];
    }
    if priceChange > PriceThreshold {
      score := score + PriceWeight;
      explanations := explanations + [PriceRising(priceChange)];
    }
    if GreaterThan(imbalance, ImbalanceThreshold) {
      score := score + ImbalanceWeight;
      explanations := explanations + [BidsDominate];
    }
    assert explanations == Explanations(volumeRatio, priceChange, imbalance);
    score := Min(score, ScoreCap);
    assert score == PumpScore(volumeRatio, priceChange, imbalance);

    r := Ok(Report(score, explanations, volumeRatio, priceChange, imbalance));
  }
}
