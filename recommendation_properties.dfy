/**
 * What the recommendation engine promises: the vote counts, the decision
 * policy, the confidence values, the shape and order of the reasons, the
 * strict thresholds, and when it fails.
 */
module RecommendationProperties {
  import opened Wrappers
  import opened Recommendations

  /** Reasons listed in strictly increasing rule position. */
  predicate InRuleOrder(rs: seq<Reason>)
  {
    forall i, j :: 0 <= i < j < |rs| ==> RuleOf(rs[i]) < RuleOf(rs[j])
  }

  /** Every reason of the list comes from a rule in `lo` up to, not including, `hi`. */
  predicate RulesBetween(rs: seq<Reason>, lo: nat, hi: nat)
  {
    forall i :: 0 <= i < |rs| ==> lo <= RuleOf(rs[i]) < hi
  }

  /** The k-th verdict of the sequence, if it votes, comes from rule `offset + k`. */
  predicate FromRules(vs: seq<Verdict>, offset: nat)
  {
    forall k :: 0 <= k < |vs| && !vs[k].Abstain? ==> RuleOf(vs[k].reason) == offset + k
  }

  /** The buy condition of each rule, read directly off the two rows. */
  predicate BuyRule(prev: Row, latest: Row, k: nat)
  {
    if k == 0 then latest.rsi < 30.0
    else if k == 1 then latest.macd > latest.signal && prev.macd <= prev.signal
    else if k == 2 then latest.sma20 > latest.sma50 && prev.sma20 <= prev.sma50
    else if k == 3 then latest.close < latest.bbLower
    else false
  }

  /** The sell condition of each rule, read directly off the two rows. */
  predicate SellRule(prev: Row, latest: Row, k: nat)
  {
    if k == 0 then latest.rsi > 70.0
    else if k == 1 then latest.macd < latest.signal && prev.macd >= prev.signal
    else if k == 2 then latest.sma20 < latest.sma50 && prev.sma20 >= prev.sma50
    else if k == 3 then latest.close > latest.bbUpper
    else false
  }

  /**
   * 1 when rule k votes for the side: buying when its buy condition holds,
   * selling when its sell condition holds and its buy condition (tested
   * first) does not.
   */
  function RuleVote(prev: Row, latest: Row, buying: bool, k: nat): nat
  {
    var fires := if buying then BuyRule(prev, latest, k)
                 else SellRule(prev, latest, k) && !BuyRule(prev, latest, k);
    if fires then 1 else 0
  }

  /** How many of the four rules vote for the side. */
  function RulesVoting(prev: Row, latest: Row, buying: bool): nat
  {
    RuleVote(prev, latest, buying, 0) + RuleVote(prev, latest, buying, 1)
      + RuleVote(prev, latest, buying, 2) + RuleVote(prev, latest, buying, 3)
  }

  /** The reason rule k appends when it votes buy. */
  function BuyReason(latest: Row, k: nat): Reason
  {
    if k == 0 then RsiOversold(latest.rsi)
    else if k == 1 then MacdCrossedAbove
    else if k == 2 then MaCrossedAbove
    else PriceBelowLowerBand
  }

  /** The reason rule k appends when it votes sell. */
  function SellReason(latest: Row, k: nat): Reason
  {
    if k == 0 then RsiOverbought(latest.rsi)
    else if k == 1 then MacdCrossedBelow
    else if k == 2 then MaCrossedBelow
    else PriceAboveUpperBand
  }

  /** What rule k contributes to the reasons: its buy reason, else its sell reason, else nothing. */
  function RuleReason(prev: Row, latest: Row, k: nat): seq<Reason>
  {
    if BuyRule(prev, latest, k) then [BuyReason(latest, k)]
    else if SellRule(prev, latest, k) then [SellReason(latest, k)]
    else []
  }

  /** The reasons the four rules contribute, in rule order. */
  function RuleReasons(prev: Row, latest: Row): seq<Reason>
  {
    RuleReason(prev, latest, 0) + RuleReason(prev, latest, 1)
      + RuleReason(prev, latest, 2) + RuleReason(prev, latest, 3)
  }

  /** Each voting verdict contributes exactly one reason: as many reasons as votes. */
  lemma {:induction false} ReasonsMatchVotes(vs: seq<Verdict>)
    ensures |Collected(vs)| == Tally(vs, true) + Tally(vs, false)
  {
    if vs != [] {
      ReasonsMatchVotes(vs[1..]);
    }
  }

  /** Checks run in rule order collect their reasons in rule order. */
  lemma {:induction false} ReasonsKeepRuleOrder(vs: seq<Verdict>, offset: nat)
    requires FromRules(vs, offset)
    ensures InRuleOrder(Collected(vs))
    ensures RulesBetween(Collected(vs), offset, offset + |vs|)
  {
    if vs != [] {
      assert FromRules(vs[1..], offset + 1) by {
        forall k | 0 <= k < |vs[1..]| && !vs[1..][k].Abstain?
          ensures RuleOf(vs[1..][k].reason) == offset + 1 + k
        {
          assert vs[1..][k] == vs[k + 1];
        }
      }
      ReasonsKeepRuleOrder(vs[1..], offset + 1);
      var head, tail := ReasonOf(vs[0]), Collected(vs[1..]);
      assert RulesBetween(head, offset, offset + 1);
      assert Collected(vs) == head + tail;
    }
  }

  /** The verdicts are four, one per rule, in rule order. */
  lemma FourRules(rows: seq<Row>)
    requires Verdicts(rows).Ok?
    ensures |Verdicts(rows).value| == 4
    ensures FromRules(Verdicts(rows).value, 0)
  {
    var latest := rows[|rows| - 1];
    var vs := Verdicts(rows).value;
    assert vs[1] == CrossCheck(MacdOverSignal, latest, Iloc(rows, 2)).value;
    assert vs[2] == CrossCheck(ShortOverLongMa, latest, Iloc(rows, 2)).value;
  }

  /** Every check counts once: the total is 4 and the votes cast are at most 4. */
  lemma TotalIsFour(rows: seq<Row>)
    requires Votes(rows).Ok?
    ensures var t := Votes(rows).value;
      t.total == 4 && t.buy + t.sell <= 4 && t.buy <= 4 && t.sell <= 4
  {
    FourRules(rows);
  }

  /** BUY on a strict buy majority, SELL on a strict sell majority, HOLD on a tie (0/0 included). */
  lemma DecisionPolicy(rows: seq<Row>)
    requires Recommend(rows).Ok?
    ensures Votes(rows).Ok?
    ensures var t, rec := Votes(rows).value, Recommend(rows).value;
      && (rec.decision == BUY <==> t.buy > t.sell)
      && (rec.decision == SELL <==> t.sell > t.buy)
      && (rec.decision == HOLD <==> t.buy == t.sell)
  {
  }

  /** The winning side's share of the four checks, in percent; 50 on a tie. */
  lemma ConfidenceLevels(rows: seq<Row>)
    requires Recommend(rows).Ok?
    ensures Votes(rows).Ok?
    ensures var t, rec := Votes(rows).value, Recommend(rows).value;
      && (rec.decision == BUY ==> rec.confidence == 25.0 * t.buy as real)
      && (rec.decision == SELL ==> rec.confidence == 25.0 * t.sell as real)
      && (rec.decision == HOLD ==> rec.confidence == 50.0)
      && rec.confidence in {25.0, 50.0, 75.0, 100.0}
  {
    TotalIsFour(rows);
    var t := Votes(rows).value;
    assert Run(Verdicts(rows).value) == t;
  }

  /**
   * The final branch keeps the reasons gathered, adding the neutral reason,
   * after every rule's reason, exactly on HOLD.
   */
  lemma DecideShape(c: Counters)
    requires c.buy + c.sell <= c.total
    requires |c.reasons| == c.buy + c.sell
    requires InRuleOrder(c.reasons) && RulesBetween(c.reasons, 0, 4)
    ensures var rec := Decide(c);
      && |rec.reasons| >= |c.reasons| && rec.reasons[..|c.reasons|] == c.reasons
      && |rec.reasons| == c.buy + c.sell + (if rec.decision == HOLD then 1 else 0)
      && InRuleOrder(rec.reasons)
      && (rec.decision == HOLD <==> |rec.reasons| > 0 && rec.reasons[|rec.reasons| - 1] == Neutral)
  {
    var rec := Decide(c);
    if rec.decision == HOLD {
      assert rec.reasons == c.reasons + [Neutral];
      forall i, j | 0 <= i < j < |rec.reasons| ensures RuleOf(rec.reasons[i]) < RuleOf(rec.reasons[j]) {
        assert rec.reasons[i] == c.reasons[i];
        if j < |c.reasons| {
          assert rec.reasons[j] == c.reasons[j];
        }
      }
    } else if |rec.reasons| > 0 {
      assert RuleOf(rec.reasons[|rec.reasons| - 1]) < 4;
    }
  }

  /**
   * One reason per vote, plus the neutral reason exactly on HOLD, where it
   * comes last; the rule reasons appear in rule order.
   */
  lemma ReasonsShape(rows: seq<Row>)
    requires Recommend(rows).Ok?
    ensures Votes(rows).Ok?
    ensures var t, rec := Votes(rows).value, Recommend(rows).value;
      && |rec.reasons| == t.buy + t.sell + (if rec.decision == HOLD then 1 else 0)
      && InRuleOrder(rec.reasons)
      && (rec.decision == HOLD <==> |rec.reasons| > 0 && rec.reasons[|rec.reasons| - 1] == Neutral)
  {
    var vs := Verdicts(rows).value;
    FourRules(rows);
    ReasonsMatchVotes(vs);
    ReasonsKeepRuleOrder(vs, 0);
    DecideShape(Run(vs));
  }

  /**
   * With two rows, every check succeeds, and check k votes buy exactly when
   * its buy condition holds and sell exactly when its sell condition holds
   * and its buy condition does not.
   */
  lemma RuleVotes(rows: seq<Row>, k: nat)
    requires |rows| >= 2 && k < 4
    ensures Verdicts(rows).Ok? && |Verdicts(rows).value| == 4
    ensures var v, prev, latest := Verdicts(rows).value[k], rows[|rows| - 2], rows[|rows| - 1];
      && (v.BuyVote? <==> BuyRule(prev, latest, k))
      && (v.SellVote? <==> SellRule(prev, latest, k) && !BuyRule(prev, latest, k))
      && ReasonOf(v) == RuleReason(prev, latest, k)
  {
  }

  /** A line strictly on the same side of its reference on both rows. */
  predicate SteadyTrend(prevFast: real, prevSlow: real, fast: real, slow: real)
  {
    (prevFast > prevSlow && fast > slow) || (prevFast < prevSlow && fast < slow)
  }

  /**
   * A crossover needs a change of relation: a line that stays strictly above,
   * or strictly below, its reference on both rows casts no vote.
   */
  lemma SteadyTrendAbstains(rows: seq<Row>)
    requires |rows| >= 2
    ensures Verdicts(rows).Ok? && |Verdicts(rows).value| == 4
    ensures var vs, prev, latest := Verdicts(rows).value, rows[|rows| - 2], rows[|rows| - 1];
      && (SteadyTrend(prev.macd, prev.signal, latest.macd, latest.signal) ==> vs[1] == Abstain)
      && (SteadyTrend(prev.sma20, prev.sma50, latest.sma20, latest.sma50) ==> vs[2] == Abstain)
  {
  }

  /**
   * The `elif` never hides a sell condition except in the band check with
   * crossed bands: with two rows, every check but the band check votes sell
   * exactly when its sell condition holds, and so does the band check when
   * the lower band is not above the upper one. A close below a crossed
   * lower band and above its upper band votes buy only.
   */
  lemma RulesExclusive(rows: seq<Row>)
    requires |rows| >= 2
    ensures Verdicts(rows).Ok?
    ensures var vs, prev, latest := Verdicts(rows).value, rows[|rows| - 2], rows[|rows| - 1];
      && (forall k :: 0 <= k < 3 ==> (vs[k].SellVote? <==> SellRule(prev, latest, k)))
      && (latest.bbLower <= latest.bbUpper ==> (vs[3].SellVote? <==> SellRule(prev, latest, 3)))
      && (latest.bbUpper < latest.close < latest.bbLower ==> vs[3].BuyVote?)
  {
    VerdictsMatchRules(rows);
  }

  /** Each verdict agrees with its rule's conditions on the two rows. */
  predicate MatchRules(vs: seq<Verdict>, prev: Row, latest: Row)
  {
    && |vs| == 4
    && forall k :: 0 <= k < 4 ==>
         && (vs[k].BuyVote? <==> BuyRule(prev, latest, k))
         && (vs[k].SellVote? <==> SellRule(prev, latest, k) && !BuyRule(prev, latest, k))
         && ReasonOf(vs[k]) == RuleReason(prev, latest, k)
  }

  /** With two rows, the verdicts agree with the rule conditions. */
  lemma VerdictsMatchRules(rows: seq<Row>)
    requires |rows| >= 2
    ensures Verdicts(rows).Ok? && MatchRules(Verdicts(rows).value, rows[|rows| - 2], rows[|rows| - 1])
  {
    forall k | 0 <= k < 4
      ensures var v, prev, latest := Verdicts(rows).value[k], rows[|rows| - 2], rows[|rows| - 1];
        && (v.BuyVote? <==> BuyRule(prev, latest, k))
        && (v.SellVote? <==> SellRule(prev, latest, k) && !BuyRule(prev, latest, k))
        && ReasonOf(v) == RuleReason(prev, latest, k)
    {
      RuleVotes(rows, k);
    }
  }

  /** A verdict that agrees with rule k's conditions votes as the rule says. */
  lemma VoteMatches(v: Verdict, prev: Row, latest: Row, k: nat)
    requires v.BuyVote? <==> BuyRule(prev, latest, k)
    requires v.SellVote? <==> SellRule(prev, latest, k) && !BuyRule(prev, latest, k)
    ensures VoteFor(v, true) == RuleVote(prev, latest, true, k)
    ensures VoteFor(v, false) == RuleVote(prev, latest, false, k)
  {
  }

  /** Verdicts that agree with the rules tally to the number of rules voting each way. */
  lemma CountRules(vs: seq<Verdict>, prev: Row, latest: Row)
    requires MatchRules(vs, prev, latest)
    ensures Tally(vs, true) == RulesVoting(prev, latest, true)
    ensures Tally(vs, false) == RulesVoting(prev, latest, false)
  {
    CountFour(vs, true);
    CountFour(vs, false);
    VoteMatches(vs[0], prev, latest, 0);
    VoteMatches(vs[1], prev, latest, 1);
    VoteMatches(vs[2], prev, latest, 2);
    VoteMatches(vs[3], prev, latest, 3);
  }

  /** The counters equal the number of rules whose conditions hold. */
  lemma VotesCountRules(rows: seq<Row>)
    requires |rows| >= 2
    ensures Votes(rows).Ok?
    ensures var t, prev, latest := Votes(rows).value, rows[|rows| - 2], rows[|rows| - 1];
      && t.buy == RulesVoting(prev, latest, true)
      && t.sell == RulesVoting(prev, latest, false)
  {
    VerdictsMatchRules(rows);
    CountRules(Verdicts(rows).value, rows[|rows| - 2], rows[|rows| - 1]);
  }

  /** Verdicts that agree with the rules collect the rules' reasons, in rule order. */
  lemma CollectRules(vs: seq<Verdict>, prev: Row, latest: Row)
    requires MatchRules(vs, prev, latest)
    ensures Collected(vs) == RuleReasons(prev, latest)
  {
    CollectFour(vs);
    assert ReasonOf(vs[0]) == RuleReason(prev, latest, 0);
    assert ReasonOf(vs[1]) == RuleReason(prev, latest, 1);
    assert ReasonOf(vs[2]) == RuleReason(prev, latest, 2);
    assert ReasonOf(vs[3]) == RuleReason(prev, latest, 3);
  }

  /**
   * With two rows, the reasons are exactly those of the rules whose
   * conditions hold, each rule's own text, in rule order, followed by the
   * neutral reason on HOLD.
   */
  lemma ReasonsFromRules(rows: seq<Row>)
    requires |rows| >= 2
    ensures Recommend(rows).Ok?
    ensures var rec, prev, latest := Recommend(rows).value, rows[|rows| - 2], rows[|rows| - 1];
      rec.reasons == RuleReasons(prev, latest) + (if rec.decision == HOLD then [Neutral] else [])
  {
    VerdictsMatchRules(rows);
    CollectRules(Verdicts(rows).value, rows[|rows| - 2], rows[|rows| - 1]);
  }

  /** Every recommendation comes with at least one reason. */
  lemma AlwaysAReason(rows: seq<Row>)
    requires Recommend(rows).Ok?
    ensures |Recommend(rows).value.reasons| >= 1
  {
    ReasonsShape(rows);
  }

  /**
   * The thresholds are strict: RSI at exactly 30 or 70 casts no vote, a close
   * on a band casts no vote towards that band, and a crossover line equal to
   * its reference on the latest row casts no vote.
   */
  lemma StrictThresholds(rows: seq<Row>)
    requires Verdicts(rows).Ok?
    ensures |rows| >= 1 && |Verdicts(rows).value| == 4
    ensures var vs, latest := Verdicts(rows).value, rows[|rows| - 1];
      && (latest.rsi == 30.0 || latest.rsi == 70.0 ==> vs[0] == Abstain)
      && (latest.macd == latest.signal ==> vs[1] == Abstain)
      && (latest.sma20 == latest.sma50 ==> vs[2] == Abstain)
      && (latest.close == latest.bbLower ==> !vs[3].BuyVote?)
      && (latest.close == latest.bbUpper ==> !vs[3].SellVote?)
  {
  }

  /**
   * The engine fails exactly when a row it reads is missing: always on an
   * empty table, and on a one-row table when a latest crossover comparison
   * is strict, since only then is the previous row read.
   */
  lemma FailsExactly(rows: seq<Row>)
    ensures Recommend(rows).Err? <==>
      |rows| == 0 || (|rows| == 1 && (rows[0].macd != rows[0].signal || rows[0].sma20 != rows[0].sma50))
  {
    if |rows| == 1 {
      var latest := rows[0];
      if latest.macd != latest.signal {
        assert CrossCheck(MacdOverSignal, latest, Iloc(rows, 2)).Err?;
      } else if latest.sma20 != latest.sma50 {
        assert CrossCheck(ShortOverLongMa, latest, Iloc(rows, 2)).Err?;
      }
    }
  }

  /** RSI oversold and price above the upper band: one vote each, a tie, HOLD. */
  lemma SplitVoteHolds()
    ensures var prev := Row(45.0, 1.0, 0.5, 101.0, 100.0, 100.0, 95.0, 105.0);
      var latest := Row(24.0, 1.2, 0.6, 102.0, 100.0, 110.0, 96.0, 106.0);
      Recommend([prev, latest]) ==
        Ok(Recommendation(HOLD, 50.0, [RsiOversold(24.0), PriceAboveUpperBand, Neutral]))
  {
    var prev := Row(45.0, 1.0, 0.5, 101.0, 100.0, 100.0, 95.0, 105.0);
    var latest := Row(24.0, 1.2, 0.6, 102.0, 100.0, 110.0, 96.0, 106.0);
    var vs := [BuyVote(RsiOversold(24.0)), Abstain, Abstain, SellVote(PriceAboveUpperBand)];
    assert Verdicts([prev, latest]) == Ok(vs);
    CountFour(vs, true);
    CountFour(vs, false);
    CollectFour(vs);
    assert Collected(vs) == [RsiOversold(24.0), PriceAboveUpperBand];
    assert Run(vs) == Counters(1, 1, 4, [RsiOversold(24.0), PriceAboveUpperBand]);
    assert Recommend([prev, latest]) == Ok(Decide(Run(vs)));
    assert Decide(Run(vs)) == Recommendation(HOLD, 50.0, [RsiOversold(24.0), PriceAboveUpperBand, Neutral]);
  }

  /** MACD and SMA_20 both crossing upwards, RSI neutral, price inside the bands: BUY at 50. */
  lemma TwoCrossingsBuy()
    ensures var prev := Row(50.0, -0.1, 0.0, 99.0, 100.0, 100.0, 95.0, 105.0);
      var latest := Row(50.0, 0.2, 0.1, 101.0, 100.0, 100.0, 95.0, 105.0);
      Recommend([prev, latest]) ==
        Ok(Recommendation(BUY, 50.0, [MacdCrossedAbove, MaCrossedAbove]))
  {
    var prev := Row(50.0, -0.1, 0.0, 99.0, 100.0, 100.0, 95.0, 105.0);
    var latest := Row(50.0, 0.2, 0.1, 101.0, 100.0, 100.0, 95.0, 105.0);
    var vs := [Abstain, BuyVote(MacdCrossedAbove), BuyVote(MaCrossedAbove), Abstain];
    assert Verdicts([prev, latest]) == Ok(vs);
    CountFour(vs, true);
    CountFour(vs, false);
    CollectFour(vs);
    assert Collected(vs) == [MacdCrossedAbove, MaCrossedAbove];
    assert Run(vs) == Counters(2, 0, 4, [MacdCrossedAbove, MaCrossedAbove]);
    assert Recommend([prev, latest]) == Ok(Decide(Run(vs)));
    assert Decide(Run(vs)) == Recommendation(BUY, 50.0, [MacdCrossedAbove, MaCrossedAbove]);
  }
}
