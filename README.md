# StockWizaed recommendation engine in Dafny

StockWizaed produces a trading recommendation from a stock's price table once
technical indicators have been added to it. Its engine, `generate_recommendation`,
reads the last row of the table (and the row before it for the crossover
checks), runs four checks and tallies their votes:

1. RSI below 30 votes buy; RSI above 70 votes sell.
2. MACD crossing above its signal line votes buy; crossing below votes sell.
3. SMA_20 crossing above SMA_50 votes buy; crossing below votes sell.
4. A close below the lower Bollinger Band votes buy; a close above the upper band votes sell.

Each check adds one to the total. A check that votes also appends its reason.
A strict buy majority gives BUY and a strict sell majority gives SELL. In both
cases the confidence is the winner's share of the checks, in percent. A tie
gives HOLD, with confidence 50 and a final "indicators are neutral" reason.

The project has three files:

- `wrappers.dfy`: a `Result` type, so that a failing row lookup can propagate with `:-`.
- `recommendations.dfy` (module `Recommendations`): the engine.
  - The table is a sequence of `Row`s holding the columns the engine reads.
  - `Iloc` is pandas' positional lookup `iloc[-k]`. It fails on a table that is too short.
  - The engine is imperative, so `GenerateRecommendation` is a method. Like the source, it threads local buy/sell/total counters and a growing reason list through one step method per check: `CheckRsi`, `CheckCrossover` (used for the MACD and the moving-average checks) and `CheckBands`. The method `Conclude` holds the final branch.
  - The methods are proved equal to a specification in expression form:
    - `RsiCheck`, `CrossCheck` and `BandCheck` give each check's vote;
    - `Verdicts` gives the four votes in order;
    - `Run` counts them (`Tally` and `Collected`);
    - `Decide` chooses;
    - `Recommend` combines all of these.
  - `RsiCheck`, `CrossCheck`, `BandCheck` and `Decide` take the same branches as their step methods, once as expressions and once as statements.
  - Two definitions are independent of the engine:
    - `Run` counts the votes, where the methods update the counters check by check (`RunFour` proves the two agree);
    - the properties module reads each rule's buy and sell condition and its reason straight off the two rows (`BuyRule`, `SellRule`, `RuleReasons`), and `VotesCountRules` and `ReasonsFromRules` prove the engine agrees with them.
- `recommendation_properties.dfy` (module `RecommendationProperties`): the engine's promises, proved about `Recommend`:
  - the total of 4 and the vote bounds;
  - the decision policy;
  - the confidence levels;
  - the number, order and position of the reasons;
  - which reason each voting rule appends;
  - the votes as a function of the rule conditions on the two rows;
  - the strict thresholds;
  - exactly when the engine fails;
  - two worked scenarios.

The engine's `and` short-circuits. As a result, the previous row (`iloc[-2]`)
is read only when the latest MACD (or SMA) comparison is strict. The model
follows the code:

- An empty table fails, because the RSI lookup fails.
- A one-row table fails only if the MACD differs from its signal line, or SMA_20 differs from SMA_50, on that row.
- If both pairs are equal, a one-row table gets a normal recommendation.

One might expect a table of fewer than two rows to be refused outright. The
code fails only when it reaches a missing row. `FailsExactly` states the behaviour of
the code.

## Model

| member | source | states |
|---|---|---|
| Recommendations.Iloc | recommendations.py:24-25 | `iloc[-k]` succeeds exactly when the table has at least k rows, and then returns the k-th row from the end |
| Recommendations.RsiCheck | recommendations.py:14-20 | the RSI check votes buy iff RSI < 30, sell iff RSI > 70, with the oversold / overbought reason carrying the RSI value |
| Recommendations.CrossCheck | recommendations.py:24-42 | a crossover check fails iff the previous row is missing and the latest pair differs; it votes buy iff the line is above on the latest row and not above on the previous one, sell iff below now and not below before, each with its crossing reason |
| Recommendations.BandCheck | recommendations.py:46-51 | the band check votes buy iff the close is below the lower band, sell iff it is not below the lower band and is above the upper band, with the band reason |
| Recommendations.Verdicts | recommendations.py:13-52 | with two rows the checks succeed; a success gives four verdicts, the k-th voting only with a reason of check k |
| Recommendations.Decide | recommendations.py:54-66 | BUY iff buy > sell, SELL iff sell > buy, HOLD iff equal; the reasons are kept, with the neutral reason appended exactly on HOLD; HOLD's confidence is 50, otherwise it lies in (0, 100] |
| Recommendations.Recommend | recommendations.py:3-66 | the engine succeeds iff all its checks do, and then its confidence lies in (0, 100] |
| Recommendations.Votes | recommendations.py:8-52 | the counters at the final branch exist iff the checks succeed; the total is 4 and at most 4 votes are cast |
| Recommendations.Record | recommendations.py:15-21 | one check adds one to the total and at most one vote |
| Recommendations.Tally | recommendations.py:9-52 | a side's vote count never exceeds the number of checks |
| Recommendations.Collected | recommendations.py:8-51 | there are never more reasons than checks |
| Recommendations.TalliesBounded | recommendations.py:13-52 | buy and sell votes together never exceed the number of checks |
| Recommendations.Run | recommendations.py:8-52 | after the checks, the total equals the number of checks and buy + sell never exceeds the total |
| Recommendations.CountFour | recommendations.py:13-52 | each counter after the four checks is the number of checks that voted that way |
| Recommendations.CollectFour | recommendations.py:13-51 | the reasons after the four checks are each check's reason, in the order the checks ran |
| Recommendations.RunFour | recommendations.py:13-52 | updating the counters check by check from zero gives the same state as counting the four votes |
| Recommendations.RecommendByChecks | recommendations.py:13-66 | the engine's result is the decision on the four checks' step-by-step updates, or the error of the first crossover check that reaches a missing row |
| Recommendations.CheckRsi | recommendations.py:13-21 | the RSI step gives buy below 30, sell above 70, otherwise no vote; it adds the RSI reason carrying the value and bumps the total |
| Recommendations.CheckCrossover | recommendations.py:23-43 | the MACD/SMA step votes on a change of relation between the previous and latest rows; it reads the previous row only when the latest comparison is strict, and fails when that row is missing |
| Recommendations.CheckBands | recommendations.py:45-52 | the Bollinger step gives buy below the lower band, sell above the upper band (tested second), otherwise no vote |
| Recommendations.Conclude | recommendations.py:54-66 | the final branch: strict majority and share-of-checks confidence, or HOLD at 50 with the neutral reason appended |
| Recommendations.GenerateRecommendation | recommendations.py:3-66 | the engine's result, or its lookup error, equals the specification `Recommend` about which the properties below are proved |
| RecommendationProperties.ReasonsMatchVotes | recommendations.py:13-52 | every vote appends exactly one reason and an abstaining check appends none |
| RecommendationProperties.ReasonsKeepRuleOrder | recommendations.py:13-52 | checks run in rule order collect their reasons in strictly increasing rule order, all from the rules run |
| RecommendationProperties.DecideShape | recommendations.py:54-64 | the final branch keeps the reasons gathered as a prefix, in order, and appends the neutral reason after them exactly on HOLD |
| RecommendationProperties.FourRules | recommendations.py:13-52 | there are exactly four verdicts, the i-th coming from check i |
| RecommendationProperties.TotalIsFour | recommendations.py:11-52 | total_signals is 4; buy and sell are each at most 4, and so is their sum |
| RecommendationProperties.DecisionPolicy | recommendations.py:55-63 | BUY iff buy > sell, SELL iff sell > buy, HOLD iff they are equal (0/0 included) |
| RecommendationProperties.ConfidenceLevels | recommendations.py:54-62 | BUY's confidence is 25 times the buy votes, SELL's is 25 times the sell votes, HOLD's is 50; it is always 25, 50, 75 or 100 |
| RecommendationProperties.ReasonsShape | recommendations.py:8-64 | the reasons number buy + sell, plus one on HOLD; they are in check order; the last is the neutral reason exactly on HOLD |
| RecommendationProperties.RuleVotes | recommendations.py:13-52 | with two rows every check succeeds; check k votes buy iff its buy condition holds, and sell iff its sell condition holds and its buy condition does not |
| RecommendationProperties.VerdictsMatchRules | recommendations.py:13-52 | with two rows, all four verdicts agree with their rule conditions |
| RecommendationProperties.VoteMatches | recommendations.py:15-51 | a verdict that agrees with its rule's conditions counts exactly as the rule votes |
| RecommendationProperties.CountRules | recommendations.py:13-52 | verdicts that agree with the rules tally to the number of rules whose buy (resp. sell) conditions hold |
| RecommendationProperties.VotesCountRules | recommendations.py:8-52 | with two rows, buy_signals and sell_signals are the numbers of rules whose buy and sell conditions hold on those rows |
| RecommendationProperties.SteadyTrendAbstains | recommendations.py:23-43 | a MACD or SMA line strictly on the same side of its reference on both rows casts no vote |
| RecommendationProperties.RulesExclusive | recommendations.py:15-51 | with two rows, the RSI and crossover checks vote sell exactly when their sell condition holds, and so does the band check unless the bands are crossed; a close between crossed bands votes buy only |
| RecommendationProperties.CollectRules | recommendations.py:13-51 | verdicts that agree with the rules collect exactly the rules' own reasons, in rule order |
| RecommendationProperties.ReasonsFromRules | recommendations.py:13-64 | with two rows, the reasons are exactly those of the rules whose conditions hold, each rule's own text (the RSI ones carrying the latest RSI), in rule order, followed by the neutral reason on HOLD |
| RecommendationProperties.AlwaysAReason | recommendations.py:8-64 | every recommendation comes with at least one reason |
| RecommendationProperties.StrictThresholds | recommendations.py:15-49 | RSI exactly 30 or 70 casts no vote; MACD equal to its signal line, or SMA_20 equal to SMA_50, on the latest row casts no vote; a close on a band casts no vote towards that band |
| RecommendationProperties.FailsExactly | recommendations.py:14-40 | the engine fails iff the table is empty, or has one row on which MACD differs from its signal line or SMA_20 from SMA_50 |
| RecommendationProperties.SplitVoteHolds | recommendations.py:13-66 | an oversold RSI plus a close above the upper band ties at one vote each and gives HOLD at 50 with both reasons and the neutral one |
| RecommendationProperties.TwoCrossingsBuy | recommendations.py:13-66 | MACD and SMA_20 both crossing upwards, with nothing else voting, gives BUY at 50 with the two crossing reasons in order |

## Left out

- The indicator engine (`calculate_indicators` in `utils/technical_analysis.py`) is not part of this model. The RSI, MACD, signal-line, SMA and Bollinger columns are inputs in each `Row`.
- The Streamlit user interface in `main.py`, the market-data download in `stock_data.py` and the news lookup in `news_data.py` are network and display code. They are not modelled.
- Floating point: the columns and the confidence are Dafny reals. NaN values, which make every comparison false, and rounding in `buy / total * 100` are not modelled.
- Recommendations.CheckRsi: the RSI reasons carry the RSI value itself rather than the text formatted to two decimals (`:.2f`). The other reason texts are represented by constructors.
- Recommendations.Conclude: the HOLD confidence is the real 50.0. In the source it is the integer 50, whereas BUY and SELL give a float.
- The failure of a lookup past the start of the table is one error value, `IndexOutOfRange`. The exception's type and message are not modelled.
- The table's date index and all other columns are not modelled. Only the positional lookups from the end are.
- Running the engine twice on the same table gives the same result because `Recommend` is a function. No separate lemma states this.
