/**
 * The rule-based recommendation engine: four independent checks over the
 * last two rows of the indicator-augmented price table, a buy and a sell
 * counter, and a strict-majority decision with a confidence and reasons.
 */
module Recommendations {
  import opened Wrappers

  /** One row of the augmented price table: the columns the engine reads. */
  datatype Row = Row(
    rsi: real,
    macd: real,
    signal: real,
    sma20: real,
    sma50: real,
    close: real,
    bbLower: real,
    bbUpper: real)

  datatype Decision = BUY | SELL | HOLD

  /** The reason strings the engine appends; the RSI ones carry the RSI value they print. */
  datatype Reason =
    | RsiOversold(rsi: real)
    | RsiOverbought(rsi: real)
    | MacdCrossedAbove
    | MacdCrossedBelow
    | MaCrossedAbove
    | MaCrossedBelow
    | PriceBelowLowerBand
    | PriceAboveUpperBand
    | Neutral

  /** A positional row lookup (`iloc[-k]`) past the start of the table. */
  datatype Error = IndexOutOfRange

  datatype Recommendation = Recommendation(decision: Decision, confidence: real, reasons: seq<Reason>)

  /** What one check contributes: no vote, or one vote with its reason. */
  datatype Verdict = Abstain | BuyVote(reason: Reason) | SellVote(reason: Reason)

  /** The engine's running state: the buy, sell and total counters and the reasons so far. */
  datatype Counters = Counters(buy: nat, sell: nat, total: nat, reasons: seq<Reason>)

  /** The two crossover checks: which line crosses which. */
  datatype Crossing = MacdOverSignal | ShortOverLongMa

  const Oversold: real := 30.0
  const Overbought: real := 70.0
  const NeutralConfidence: real := 50.0
  const Start: Counters := Counters(0, 0, 0, [])

  /** Position of the check that produces a reason; the neutral reason comes after all four. */
  function RuleOf(r: Reason): nat
  {
    match r
    case RsiOversold(_) => 0
    case RsiOverbought(_) => 0
    case MacdCrossedAbove => 1
    case MacdCrossedBelow => 1
    case MaCrossedAbove => 2
    case MaCrossedBelow => 2
    case PriceBelowLowerBand => 3
    case PriceAboveUpperBand => 3
    case Neutral => 4
  }

  /** `iloc[-k]`: the k-th row from the end, or an error when the table is shorter than k. */
  function Iloc(rows: seq<Row>, k: nat): (r: Result<Row, Error>)
    requires k >= 1
    ensures r.Ok? <==> k <= |rows|
    ensures r.Ok? ==> r.value == rows[|rows| - k]
  {
    if k <= |rows| then Ok(rows[|rows| - k]) else Err(IndexOutOfRange)
  }

  /** The line that crosses. */
  function Fast(c: Crossing, row: Row): real
  {
    match c
    case MacdOverSignal => row.macd
    case ShortOverLongMa => row.sma20
  }

  /** The line it is compared against. */
  function Slow(c: Crossing, row: Row): real
  {
    match c
    case MacdOverSignal => row.signal
    case ShortOverLongMa => row.sma50
  }

  function CrossedAbove(c: Crossing): Reason
  {
    match c
    case MacdOverSignal => MacdCrossedAbove
    case ShortOverLongMa => MaCrossedAbove
  }

  function CrossedBelow(c: Crossing): Reason
  {
    match c
    case MacdOverSignal => MacdCrossedBelow
    case ShortOverLongMa => MaCrossedBelow
  }

  /** Check 1: the RSI level of the latest row. */
  function RsiCheck(latest: Row): (v: Verdict)
    ensures v.BuyVote? <==> latest.rsi < Oversold
    ensures v.SellVote? <==> latest.rsi > Overbought
    ensures v.BuyVote? ==> v.reason == RsiOversold(latest.rsi)
    ensures v.SellVote? ==> v.reason == RsiOverbought(latest.rsi)
  {
    if latest.rsi < Oversold then BuyVote(RsiOversold(latest.rsi))
    else if latest.rsi > Overbought then SellVote(RsiOverbought(latest.rsi))
    else Abstain
  }

  /**
   * Checks 2 and 3: a crossover between the previous and the latest row.
   * The previous row is looked up only when the latest comparison is strict,
   * as the short-circuiting `and` of the engine does, so its absence is an
   * error only then.
   */
  function CrossCheck(c: Crossing, latest: Row, previous: Result<Row, Error>): (r: Result<Verdict, Error>)
    ensures r.Err? <==> previous.Err? && Fast(c, latest) != Slow(c, latest)
    ensures r.Ok? && r.value.BuyVote? <==>
      previous.Ok? && Fast(c, latest) > Slow(c, latest) && Fast(c, previous.value) <= Slow(c, previous.value)
    ensures r.Ok? && r.value.SellVote? <==>
      previous.Ok? && Fast(c, latest) < Slow(c, latest) && Fast(c, previous.value) >= Slow(c, previous.value)
    ensures r.Ok? && r.value.BuyVote? ==> r.value.reason == CrossedAbove(c)
    ensures r.Ok? && r.value.SellVote? ==> r.value.reason == CrossedBelow(c)
  {
    if Fast(c, latest) > Slow(c, latest) then
      var prev :- previous;
      if Fast(c, prev) <= Slow(c, prev) then Ok(BuyVote(CrossedAbove(c))) else Ok(Abstain)
    else if Fast(c, latest) < Slow(c, latest) then
      var prev :- previous;
      if Fast(c, prev) >= Slow(c, prev) then Ok(SellVote(CrossedBelow(c))) else Ok(Abstain)
    else
      Ok(Abstain)
  }

  /** Check 4: the latest close against the Bollinger Bands. */
  function BandCheck(latest: Row): (v: Verdict)
    ensures v.BuyVote? <==> latest.close < latest.bbLower
    ensures v.SellVote? <==> latest.close >= latest.bbLower && latest.close > latest.bbUpper
    ensures v.BuyVote? ==> v.reason == PriceBelowLowerBand
    ensures v.SellVote? ==> v.reason == PriceAboveUpperBand
  {
    if latest.close < latest.bbLower then BuyVote(PriceBelowLowerBand)
    else if latest.close > latest.bbUpper then SellVote(PriceAboveUpperBand)
    else Abstain
  }

  /** The four verdicts, in the order the engine runs the checks. */
  function Verdicts(rows: seq<Row>): (r: Result<seq<Verdict>, Error>)
    ensures |rows| >= 2 ==> r.Ok?
    ensures r.Ok? ==> |rows| >= 1 && |r.value| == 4
    ensures r.Ok? ==> forall k :: 0 <= k < 4 && !r.value[k].Abstain? ==> RuleOf(r.value[k].reason) == k
  {
    var latest :- Iloc(rows, 1);
    var macd :- CrossCheck(MacdOverSignal, latest, Iloc(rows, 2));
    var ma :- CrossCheck(ShortOverLongMa, latest, Iloc(rows, 2));
    Ok([RsiCheck(latest), macd, ma, BandCheck(latest)])
  }

  /** 1 when the verdict is a vote for the given side (buying or not), else 0. */
  function VoteFor(v: Verdict, buying: bool): nat
  {
    if (buying && v.BuyVote?) || (!buying && v.SellVote?) then 1 else 0
  }

  /** The reason a verdict appends: none when it abstains. */
  function ReasonOf(v: Verdict): seq<Reason>
  {
    if v.Abstain? then [] else [v.reason]
  }

  /** One check done: its vote is counted, its reason appended, and the total bumped. */
  function Record(c: Counters, v: Verdict): (r: Counters)
    ensures r.total == c.total + 1
    ensures r.buy + r.sell <= c.buy + c.sell + 1
  {
    Counters(c.buy + VoteFor(v, true), c.sell + VoteFor(v, false), c.total + 1, c.reasons + ReasonOf(v))
  }

  /** How many of the verdicts vote for the given side. */
  function Tally(vs: seq<Verdict>, buying: bool): (n: nat)
    ensures n <= |vs|
  {
    if vs == [] then 0 else VoteFor(vs[0], buying) + Tally(vs[1..], buying)
  }

  /** The reasons of the verdicts that vote, in the order the checks ran. */
  function Collected(vs: seq<Verdict>): (rs: seq<Reason>)
    ensures |rs| <= |vs|
  {
    if vs == [] then [] else ReasonOf(vs[0]) + Collected(vs[1..])
  }

  /** A verdict votes for at most one side, so the two tallies together never exceed the checks. */
  lemma {:induction false} TalliesBounded(vs: seq<Verdict>)
    ensures Tally(vs, true) + Tally(vs, false) <= |vs|
  {
    if vs != [] {
      TalliesBounded(vs[1..]);
    }
  }

  /**
   * The counters after the checks, by counting: one vote per verdict that
   * votes, every check in the total, the voting verdicts' reasons in order.
   */
  function Run(vs: seq<Verdict>): (c: Counters)
    ensures c.total == |vs|
    ensures c.buy + c.sell <= c.total
  {
    TalliesBounded(vs);
    Counters(Tally(vs, true), Tally(vs, false), |vs|, Collected(vs))
  }

  /** The final branch: strict majority wins, a tie is HOLD with the neutral reason. */
  function Decide(c: Counters): (r: Recommendation)
    requires c.buy + c.sell <= c.total
    ensures r.decision == BUY <==> c.buy > c.sell
    ensures r.decision == SELL <==> c.sell > c.buy
    ensures r.decision == HOLD <==> c.buy == c.sell
    ensures r.reasons == c.reasons + (if r.decision == HOLD then [Neutral] else [])
    ensures r.decision == HOLD ==> r.confidence == NeutralConfidence
    ensures r.decision != HOLD ==> 0.0 < r.confidence <= 100.0
  {
    if c.buy > c.sell then
      Recommendation(BUY, (c.buy as real / c.total as real) * 100.0, c.reasons)
    else if c.sell > c.buy then
      Recommendation(SELL, (c.sell as real / c.total as real) * 100.0, c.reasons)
    else
      Recommendation(HOLD, NeutralConfidence, c.reasons + [Neutral])
  }

  /** What the engine returns for a table, or the lookup error it raises. */
  function Recommend(rows: seq<Row>): (r: Result<Recommendation, Error>)
    ensures r.Ok? <==> Verdicts(rows).Ok?
    ensures r.Ok? ==> 0.0 < r.value.confidence <= 100.0
  {
    var vs :- Verdicts(rows);
    Ok(Decide(Run(vs)))
  }

  /** The counters the engine holds when it reaches its final branch. */
  function Votes(rows: seq<Row>): (t: Result<Counters, Error>)
    ensures t.Ok? <==> Verdicts(rows).Ok?
    ensures t.Ok? ==> t.value.total == 4 && t.value.buy + t.value.sell <= 4
  {
    var vs :- Verdicts(rows);
    Ok(Run(vs))
  }

  /** Four checks tally as the sum of their four votes. */
  lemma CountFour(vs: seq<Verdict>, buying: bool)
    requires |vs| == 4
    ensures Tally(vs, buying) == VoteFor(vs[0], buying) + VoteFor(vs[1], buying) + VoteFor(vs[2], buying) + VoteFor(vs[3], buying)
  {
    assert vs[3..][0] == vs[3] && vs[3..][1..] == [];
    assert Tally(vs[3..], buying) == VoteFor(vs[3], buying);
    assert vs[2..][0] == vs[2] && vs[2..][1..] == vs[3..];
    assert Tally(vs[2..], buying) == VoteFor(vs[2], buying) + Tally(vs[3..], buying);
    assert vs[1..][0] == vs[1] && vs[1..][1..] == vs[2..];
    assert Tally(vs[1..], buying) == VoteFor(vs[1], buying) + Tally(vs[2..], buying);
  }

  /** Four checks collect their four reasons, in order. */
  lemma CollectFour(vs: seq<Verdict>)
    requires |vs| == 4
    ensures Collected(vs) == ReasonOf(vs[0]) + ReasonOf(vs[1]) + ReasonOf(vs[2]) + ReasonOf(vs[3])
  {
    var r0, r1, r2, r3 := ReasonOf(vs[0]), ReasonOf(vs[1]), ReasonOf(vs[2]), ReasonOf(vs[3]);
    assert vs[3..][0] == vs[3] && vs[3..][1..] == [];
    assert Collected(vs[3..]) == r3 + [];
    assert vs[2..][0] == vs[2] && vs[2..][1..] == vs[3..];
    assert Collected(vs[2..]) == r2 + r3;
    assert vs[1..][0] == vs[1] && vs[1..][1..] == vs[2..];
    assert Collected(vs[1..]) == r1 + (r2 + r3);
    assert Collected(vs) == r0 + (r1 + (r2 + r3));
  }

  /** Recording four checks one after another from zero gives the counts of the four. */
  lemma RunFour(vs: seq<Verdict>)
    requires |vs| == 4
    ensures Record(Record(Record(Record(Start, vs[0]), vs[1]), vs[2]), vs[3]) == Run(vs)
  {
    CountFour(vs, true);
    CountFour(vs, false);
    CollectFour(vs);
    var r0, r1, r2, r3 := ReasonOf(vs[0]), ReasonOf(vs[1]), ReasonOf(vs[2]), ReasonOf(vs[3]);
    assert [] + r0 + r1 + r2 + r3 == r0 + r1 + r2 + r3;
  }

  /**
   * The engine's result, read as the four checks recorded one after another:
   * a crossover check that reaches a missing row fails the whole call.
   */
  lemma RecommendByChecks(rows: seq<Row>)
    requires |rows| >= 1
    ensures var latest := rows[|rows| - 1];
      var macd, ma := CrossCheck(MacdOverSignal, latest, Iloc(rows, 2)), CrossCheck(ShortOverLongMa, latest, Iloc(rows, 2));
      Recommend(rows) ==
        if macd.Err? then Err(macd.error)
        else if ma.Err? then Err(ma.error)
        else Ok(Decide(Record(Record(Record(Record(Start, RsiCheck(latest)), macd.value), ma.value), BandCheck(latest))))
  {
    var latest := rows[|rows| - 1];
    var macd, ma := CrossCheck(MacdOverSignal, latest, Iloc(rows, 2)), CrossCheck(ShortOverLongMa, latest, Iloc(rows, 2));
    if macd.Ok? && ma.Ok? {
      var checks := [RsiCheck(latest), macd.value, ma.value, BandCheck(latest)];
      assert Verdicts(rows) == Ok(checks);
      RunFour(checks);
    }
  }

  /** The RSI check of the engine, on its counters. */
  method CheckRsi(latest: Row, c: Counters) returns (next: Counters)
    ensures next == Record(c, RsiCheck(latest))
  {
    var buySignals, sellSignals, totalSignals, reasons := c.buy, c.sell, c.total, c.reasons;
    if latest.rsi < Oversold {
      buySignals := buySignals + 1;
      reasons := reasons + [RsiOversold(latest.rsi)];
    } else if latest.rsi > Overbought {
      sellSignals := sellSignals + 1;
      reasons := reasons + [RsiOverbought(latest.rsi)];
    }
    totalSignals := totalSignals + 1;
    next := Counters(buySignals, sellSignals, totalSignals, reasons);
  }

  /**
   * A crossover check of the engine, on its counters. The previous row is
   * read only where the short-circuiting conditions reach it.
   */
  method CheckCrossover(k: Crossing, rows: seq<Row>, c: Counters) returns (next: Result<Counters, Error>)
    requires |rows| >= 1
    ensures var v := CrossCheck(k, rows[|rows| - 1], Iloc(rows, 2));
      next == if v.Ok? then Ok(Record(c, v.value)) else Err(v.error)
  {
    var latest := rows[|rows| - 1];
    var buySignals, sellSignals, totalSignals, reasons := c.buy, c.sell, c.total, c.reasons;
    var crossedAbove := false;
    if Fast(k, latest) > Slow(k, latest) {
      var prev :- Iloc(rows, 2);
      crossedAbove := Fast(k, prev) <= Slow(k, prev);
    }
    if crossedAbove {
      buySignals := buySignals + 1;
      reasons := reasons + [CrossedAbove(k)];
    } else {
      var crossedBelow := false;
      if Fast(k, latest) < Slow(k, latest) {
        var prev :- Iloc(rows, 2);
        crossedBelow := Fast(k, prev) >= Slow(k, prev);
      }
      if crossedBelow {
        sellSignals := sellSignals + 1;
        reasons := reasons + [CrossedBelow(k)];
      }
    }
    totalSignals := totalSignals + 1;
    ghost var v := CrossCheck(k, latest, Iloc(rows, 2));
    assert buySignals == c.buy + VoteFor(v.value, true);
    assert sellSignals == c.sell + VoteFor(v.value, false);
    assert reasons == c.reasons + ReasonOf(v.value);
    next := Ok(Counters(buySignals, sellSignals, totalSignals, reasons));
  }

  /** The Bollinger Band check of the engine, on its counters. */
  method CheckBands(latest: Row, c: Counters) returns (next: Counters)
    ensures next == Record(c, BandCheck(latest))
  {
    var buySignals, sellSignals, totalSignals, reasons := c.buy, c.sell, c.total, c.reasons;
    if latest.close < latest.bbLower {
      buySignals := buySignals + 1;
      reasons := reasons + [PriceBelowLowerBand];
    } else if latest.close > latest.bbUpper {
      sellSignals := sellSignals + 1;
      reasons := reasons + [PriceAboveUpperBand];
    }
    totalSignals := totalSignals + 1;
    next := Counters(buySignals, sellSignals, totalSignals, reasons);
  }

  /** The engine's final branch on the counters it gathered. */
  method Conclude(counters: Counters) returns (rec: Recommendation)
    requires counters.buy + counters.sell <= counters.total
    ensures rec == Decide(counters)
  {
    var buySignals, sellSignals, totalSignals, reasons :=
      counters.buy, counters.sell, counters.total, counters.reasons;
    var recommendation: Decision;
    var confidence: real;
    if buySignals > sellSignals {
      confidence := (buySignals as real / totalSignals as real) * 100.0;
      recommendation := BUY;
    } else if sellSignals > buySignals {
      confidence := (sellSignals as real / totalSignals as real) * 100.0;
      recommendation := SELL;
    } else {
      confidence := NeutralConfidence;
      recommendation := HOLD;
      reasons := reasons + [Neutral];
    }
    rec := Recommendation(recommendation, confidence, reasons);
  }

  /**
   * The engine: the four checks one after another on zeroed counters, then
   * the strict-majority decision.
   */
  method GenerateRecommendation(rows: seq<Row>) returns (result: Result<Recommendation, Error>)
    ensures result == Recommend(rows)
  {
    var latest :- Iloc(rows, 1);
    RecommendByChecks(rows);
    var counters := CheckRsi(latest, Start);
    counters :- CheckCrossover(MacdOverSignal, rows, counters);
    counters :- CheckCrossover(ShortOverLongMa, rows, counters);
    counters := CheckBands(latest, counters);
    var rec := Conclude(counters);
    result := Ok(rec);
  }
}
