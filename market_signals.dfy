// analysis/technical.py, `TechnicalAnalyzer.generate_signals`: the trend,
// RSI and MACD-cross readings of the last row of an indicator frame, and
// the -3..3 vote that turns them into BUY / HOLD / SELL.  Computing the
// indicator columns is pandas arithmetic and not part of this model; their
// values come in as the frame's cells.
module MarketSignals {
  import opened Common
  import opened MarketData

  /**
   * A cell read with `row.get(column, default)`: the column may be absent
   * from the frame (the default is used), or present and NaN.
   */
  datatype Cell = Absent | Present(x: Float)

  function GetOr(c: Cell, default: real): (f: Float)
    ensures c.Absent? ==> f == Fin(default)
    ensures c.Present? ==> f == c.x
  {
    if c.Absent? then Fin(default) else c.x
  }

  /** One row of the frame, reduced to the columns the signals read. */
  datatype Row = Row(close: Float, ma20: Cell, ma60: Cell, rsi: Cell, macd: Cell, macdSignal: Cell)

  datatype RsiSignal = Overbought | Oversold | RsiNeutral
  datatype MacdSignal = GoldenCross | DeadCross | MacdNeutral

  /** The returned dict: the three readings and the overall verdict. */
  datatype Signals = Signals(trend: Trend, rsi: RsiSignal, macd: MacdSignal, overall: Rec)

  // ---------------------------------------------------------------------
  // Readings
  // ---------------------------------------------------------------------

  /**
   * The trend test with the source's defaults: a missing MA20 reads as 0
   * in the bullish test and as 999999999 in the bearish one; a missing
   * MA60 reads as 0 in both.
   */
  function TrendSignal(row: Row): (t: Trend)
    ensures t == Bullish <==> Gt(row.close, GetOr(row.ma20, 0.0)) && Gt(GetOr(row.ma20, 0.0), GetOr(row.ma60, 0.0))
    ensures t == Bearish <==> !(Gt(row.close, GetOr(row.ma20, 0.0)) && Gt(GetOr(row.ma20, 0.0), GetOr(row.ma60, 0.0)))
                              && Lt(row.close, GetOr(row.ma20, 999999999.0))
                              && Lt(GetOr(row.ma20, 999999999.0), GetOr(row.ma60, 0.0))
  {
    var bull20, bear20, ma60 := GetOr(row.ma20, 0.0), GetOr(row.ma20, 999999999.0), GetOr(row.ma60, 0.0);
    if Gt(row.close, bull20) && Gt(bull20, ma60) then Bullish
    else if Lt(row.close, bear20) && Lt(bear20, ma60) then Bearish
    else Neutral
  }

  /** Above 70 is OVERBOUGHT, below 30 OVERSOLD; a missing RSI reads as 50. */
  function RsiSignalOf(row: Row): (s: RsiSignal)
    ensures s == Overbought <==> Gt(GetOr(row.rsi, 50.0), Fin(70.0))
    ensures s == Oversold <==> Lt(GetOr(row.rsi, 50.0), Fin(30.0))
    ensures row.rsi.Absent? ==> s == RsiNeutral
  {
    var rsi := GetOr(row.rsi, 50.0);
    if Gt(rsi, Fin(70.0)) then Overbought
    else if Lt(rsi, Fin(30.0)) then Oversold
    else RsiNeutral
  }

  /** MACD crossing its signal line upward between `prev` and `latest`. */
  predicate Golden(latest: Row, prev: Row)
  {
    Gt(GetOr(latest.macd, 0.0), GetOr(latest.macdSignal, 0.0))
    && Le(GetOr(prev.macd, 0.0), GetOr(prev.macdSignal, 0.0))
  }

  /** MACD crossing its signal line downward between `prev` and `latest`. */
  predicate Dead(latest: Row, prev: Row)
  {
    Lt(GetOr(latest.macd, 0.0), GetOr(latest.macdSignal, 0.0))
    && Ge(GetOr(prev.macd, 0.0), GetOr(prev.macdSignal, 0.0))
  }

  function MacdSignalOf(latest: Row, prev: Row): (s: MacdSignal)
    ensures s == GoldenCross <==> Golden(latest, prev)
    ensures s == DeadCross <==> Dead(latest, prev)
  {
    if Golden(latest, prev) then GoldenCross
    else if Dead(latest, prev) then DeadCross
    else MacdNeutral
  }

  // ---------------------------------------------------------------------
  // The vote
  // ---------------------------------------------------------------------

  function Indicator(b: bool): int { if b then 1 else 0 }

  /** How many of the three readings point up. */
  function Bullishness(t: Trend, r: RsiSignal, m: MacdSignal): int
  {
    Indicator(t == Bullish) + Indicator(r == Oversold) + Indicator(m == GoldenCross)
  }

  /** How many of the three readings point down. */
  function Bearishness(t: Trend, r: RsiSignal, m: MacdSignal): int
  {
    Indicator(t == Bearish) + Indicator(r == Overbought) + Indicator(m == DeadCross)
  }

  /**
   * The composite score: one point up for each bullish reading, one down
   * for each bearish one.  Each reading moves it by at most one, so it lies
   * in [-3, 3].
   */
  function Vote(t: Trend, r: RsiSignal, m: MacdSignal): (v: int)
    ensures v == Bullishness(t, r, m) - Bearishness(t, r, m)
    ensures -3 <= v <= 3
  {
    Bullishness(t, r, m) - Bearishness(t, r, m)
  }

  /** BUY from +2, SELL from -2, HOLD in between. */
  function Overall(score: int): (o: Rec)
    ensures o == Buy <==> score >= 2
    ensures o == Sell <==> score <= -2
    ensures o == Hold <==> -2 < score < 2
  {
    if score >= 2 then Buy else if score <= -2 then Sell else Hold
  }

  /** `df.iloc[-1]`. */
  function Latest(rows: seq<Row>): Row
    requires |rows| > 0
  {
    rows[|rows| - 1]
  }

  /** `df.iloc[-2] if len(df) > 1 else latest`. */
  function Previous(rows: seq<Row>): Row
    requires |rows| > 0
  {
    if |rows| > 1 then rows[|rows| - 2] else rows[|rows| - 1]
  }

  /**
   * `generate_signals`: the readings of the last row (the cross against the
   * row before it), and the overall verdict of their vote, accumulated one
   * reading at a time.  An empty frame makes `df.iloc[-1]` raise IndexError.
   */
  method GenerateSignals(rows: seq<Row>) returns (o: Outcome<Signals>)
    ensures o.Raised? <==> |rows| == 0
    ensures o.Raised? ==> o.error == IndexError
    ensures o.Done? ==> |rows| > 0 && o.value.trend == TrendSignal(Latest(rows))
                        && o.value.rsi == RsiSignalOf(Latest(rows))
                        && o.value.macd == MacdSignalOf(Latest(rows), Previous(rows))
                        && o.value.overall == Overall(Vote(o.value.trend, o.value.rsi, o.value.macd))
  {
    if |rows| == 0 {
      return Raised(IndexError);
    }
    var latest := rows[|rows| - 1];
    var prev := if |rows| > 1 then rows[|rows| - 2] else latest;
    var trend := TrendSignal(latest);
    var rsi := RsiSignalOf(latest);
    var macd := MacdSignalOf(latest, prev);

    var score := 0;
    if trend == Bullish { score := score + 1; }
    if rsi == Oversold { score := score + 1; }
    if macd == GoldenCross { score := score + 1; }
    if trend == Bearish { score := score - 1; }
    if rsi == Overbought { score := score - 1; }
    if macd == DeadCross { score := score - 1; }

    var overall := if score >= 2 then Buy else if score <= -2 then Sell else Hold;
    o := Done(Signals(trend, rsi, macd, overall));
  }

  // ---------------------------------------------------------------------
  // Properties
  // ---------------------------------------------------------------------

  /** With both averages present the trend is the shared trend rule. */
  lemma TrendSignalIsTrendRule(row: Row)
    requires row.ma20.Present? && row.ma60.Present?
    ensures TrendSignal(row) == TrendOf(row.close, row.ma20.x, row.ma60.x)
  {
  }

  /**
   * A frame without moving-average columns is always NEUTRAL: the bullish
   * test needs 0 > 0 and the bearish one 999999999 < 0.
   */
  lemma NoAveragesNeutral(row: Row)
    requires row.ma20.Absent? && row.ma60.Absent?
    ensures TrendSignal(row) == Neutral
  {
  }

  /**
   * With only MA60 missing the trend can still be BULLISH (any positive
   * MA20 below the close) but never BEARISH, since MA20 < 0 is needed.
   */
  lemma MissingMa60NeverBearish(row: Row)
    requires row.ma60.Absent? && row.ma20.Present? && row.ma20.x.Fin? && row.ma20.x.v >= 0.0
    ensures TrendSignal(row) != Bearish
  {
  }

  /** The two crosses exclude each other. */
  lemma CrossesExclusive(latest: Row, prev: Row)
    ensures !(Golden(latest, prev) && Dead(latest, prev))
  {
  }

  /** A one-row frame compares the row with itself, so no cross is ever seen. */
  lemma SingleRowNoCross(row: Row)
    ensures MacdSignalOf(Latest([row]), Previous([row])) == MacdNeutral
  {
  }

  /**
   * Each reading is bullish, bearish or neither, never both; so the
   * bullish and bearish counts together are at most three.
   */
  lemma ReadingsDisjoint(t: Trend, r: RsiSignal, m: MacdSignal)
    ensures Bullishness(t, r, m) + Bearishness(t, r, m) <= 3
    ensures 0 <= Bullishness(t, r, m) && 0 <= Bearishness(t, r, m)
  {
  }

  /**
   * BUY happens exactly when at least two readings are bullish and none is
   * bearish; SELL mirrors it.
   */
  lemma BuyMeansTwoUpNoneDown(t: Trend, r: RsiSignal, m: MacdSignal)
    ensures Overall(Vote(t, r, m)) == Buy <==> Bullishness(t, r, m) >= 2 && Bearishness(t, r, m) == 0
    ensures Overall(Vote(t, r, m)) == Sell <==> Bearishness(t, r, m) >= 2 && Bullishness(t, r, m) == 0
  {
    ReadingsDisjoint(t, r, m);
  }

  /** The vote reaches its extremes only with all three readings agreeing. */
  lemma ExtremeVotes(t: Trend, r: RsiSignal, m: MacdSignal)
    ensures Vote(t, r, m) == 3 <==> t == Bullish && r == Oversold && m == GoldenCross
    ensures Vote(t, r, m) == -3 <==> t == Bearish && r == Overbought && m == DeadCross
  {
    ReadingsDisjoint(t, r, m);
  }
}
