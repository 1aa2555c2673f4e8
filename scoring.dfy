/** The stock-scoring routine: from a daily price series to the latest
    indicators, a score out of 100, a buy note, a volume note and a
    reference stop price. Prices and volumes are exact values; the
    market-data fetch that produces the series is not part of this module. */
module Scoring {
  import opened Wrappers
  import opened MovingAverage

  /** One daily bar; only the closing price and the share volume are used. */
  datatype Bar = Bar(close: real, volume: nat)

  /** Fewest bars the routine accepts. */
  const MinBars: nat := 60
  /** Short and long moving-average windows. */
  const ShortWindow: nat := 20
  const LongWindow: nat := 60
  /** The trend test reads the long average this many bars before the last. */
  const TrendLookback: nat := 4
  /** Shares per board lot. */
  const LotSize: real := 1000.0

  /** An IEEE-754 quotient: a finite value, an infinity (a non-zero number
      divided by zero) or NaN (zero divided by zero). Every ordered
      comparison with NaN is false. */
  datatype ExtReal = Num(v: real) | PosInf | NegInf | NaN
  {
    /** `this < c` */
    predicate Below(c: real) {
      match this
      case Num(x) => x < c
      case NegInf => true
      case _ => false
    }

    /** `this > c` */
    predicate Above(c: real) {
      match this
      case Num(x) => x > c
      case PosInf => true
      case _ => false
    }

    /** `this <= c` */
    predicate AtMost(c: real) {
      match this
      case Num(x) => x <= c
      case NegInf => true
      case _ => false
    }

    /** The prime-entry band `0 < bias <= 3`. */
    predicate InPrimeBand() {
      Above(0.0) && AtMost(3.0)
    }
  }

  /** A possibly missing column value as a float: a missing value is NaN. */
  function OrNaN(o: Option<real>): ExtReal
  {
    if o.Some? then Num(o.value) else NaN
  }

  /** Percentage gap between the close and the 20-bar average,
      `(close - ma20) / ma20 * 100`, with the floating-point outcome of a
      zero average. */
  function BiasPct(close: real, ma20: real): (b: ExtReal)
    ensures b.Num? <==> ma20 != 0.0
    ensures ma20 != 0.0 ==> b.v * ma20 == (close - ma20) * 100.0
    ensures ma20 == 0.0 ==> (b == NaN <==> close == 0.0)
    ensures ma20 == 0.0 && close > 0.0 ==> b == PosInf
    ensures ma20 == 0.0 && close < 0.0 ==> b == NegInf
  {
    if ma20 != 0.0 then Num((close - ma20) / ma20 * 100.0)
    else if close > 0.0 then PosInf
    else if close < 0.0 then NegInf
    else NaN
  }

  /** The three buy notes: 絕佳買點 (prime entry), 乖離過大 (overextended),
      整理中 (consolidating). */
  datatype BuyNote = PrimeEntry | Overextended | Consolidating

  /** The two volume notes: 增量 (volume held or grew), 量縮 (volume shrank). */
  datatype VolNote = Increasing | Shrinking

  /** The values read off the last bars once the averages are in place. */
  datatype Indicators = Indicators(
    close: real,              // last close
    ma20: real,               // last MA20
    ma60: real,               // last MA60
    prevMa60: Option<real>,   // MA60 four bars earlier; None while undefined
    volToday: real,           // last volume, in lots
    volYesterday: real)       // previous volume, in lots
  {
    /** Bullish alignment: MA20 above MA60. */
    predicate IsBull() { ma20 > ma60 }

    /** Rising long average: the earlier value, NaN when undefined, lies
        below the latest one; a comparison with NaN is false. */
    predicate IsTrendUp()
      ensures IsTrendUp() <==> OrNaN(prevMa60).Below(ma60)
    {
      prevMa60.Some? && ma60 > prevMa60.value
    }

    function Bias(): ExtReal { BiasPct(close, ma20) }

    /** More than 1000 lots traded today. */
    predicate HeavyVolume() { volToday > 1000.0 }

    /** Today's volume strictly below yesterday's. */
    predicate VolumeShrinks() { volToday < volYesterday }
  }

  function Closes(bars: seq<Bar>): (xs: seq<real>)
    ensures |xs| == |bars|
    ensures forall i :: 0 <= i < |bars| ==> xs[i] == bars[i].close
  {
    seq(|bars|, i requires 0 <= i < |bars| => bars[i].close)
  }

  function Volumes(bars: seq<Bar>): (vs: seq<nat>)
    ensures |vs| == |bars|
    ensures forall i :: 0 <= i < |bars| ==> vs[i] == bars[i].volume
  {
    seq(|bars|, i requires 0 <= i < |bars| => bars[i].volume)
  }

  /** Volume in board lots. */
  function Lots(volume: nat): real
  {
    volume as real / LotSize
  }

  /** The indicators of a series long enough to score, read off the rolling
      columns at the last bar, the bar before it and four bars before it. */
  function IndicatorsOf(bars: seq<Bar>): (ind: Indicators)
    requires |bars| >= MinBars
    ensures ind.close == bars[|bars| - 1].close
    ensures ind.ma20 == Mean(Closes(bars)[|bars| - 20..])
    ensures ind.ma60 == Mean(Closes(bars)[|bars| - 60..])
    ensures ind.prevMa60.Some? <==> |bars| >= MinBars + TrendLookback
    ensures ind.prevMa60.Some? ==> ind.prevMa60.value == Mean(Closes(bars)[|bars| - 64..|bars| - 4])
    ensures ind.volToday * 1000.0 == bars[|bars| - 1].volume as real
    ensures ind.volYesterday * 1000.0 == bars[|bars| - 2].volume as real
  {
    var xs, n := Closes(bars), |bars|;
    assert xs[n - 20..n] == xs[n - 20..];
    assert xs[n - 60..n] == xs[n - 60..];
    Indicators(
      bars[n - 1].close,
      RollingMeanAt(xs, ShortWindow, n - 1).value,
      RollingMeanAt(xs, LongWindow, n - 1).value,
      RollingMeanAt(xs, LongWindow, n - 1 - TrendLookback),
      Lots(bars[n - 1].volume),
      Lots(bars[n - 2].volume))
  }

  /** The additive rule before clamping: +25 bullish alignment, +25 rising
      MA60, +20 heavy volume, +10 bias below 10, +20 prime-entry band, -10
      shrinking volume. */
  function RawScore(ind: Indicators): (r: int)
    ensures -10 <= r <= 100
    ensures r < 0 <==> r == -10
    ensures r == -10 <==> !ind.IsBull() && !ind.IsTrendUp() && !ind.HeavyVolume()
                          && !ind.Bias().Below(10.0) && ind.VolumeShrinks()
  {
    var b := ind.Bias();
    (if ind.IsBull() then 25 else 0)
    + (if ind.IsTrendUp() then 25 else 0)
    + (if ind.HeavyVolume() then 20 else 0)
    + (if b.Below(10.0) then 10 else 0)
    + (if b.InPrimeBand() then 20 else 0)
    - (if ind.VolumeShrinks() then 10 else 0)
  }

  function Clamp(lo: int, hi: int, x: int): int
  {
    if x < lo then lo else if x > hi then hi else x
  }

  /** The clamped score. It lies in [0,100]; the clamp only ever lifts the
      raw -10 to 0; it is 100 exactly when every bonus applies and volume did
      not shrink. */
  function Score(ind: Indicators): (s: int)
    ensures 0 <= s <= 100
    ensures s == RawScore(ind) || (RawScore(ind) == -10 && s == 0)
    ensures s == 100 <==> ind.IsBull() && ind.IsTrendUp() && ind.HeavyVolume()
                          && ind.Bias().InPrimeBand() && !ind.VolumeShrinks()
  {
    Clamp(0, 100, RawScore(ind))
  }

  /** Classification of the bias into the three buy notes. */
  function BuyNoteOf(b: ExtReal): (note: BuyNote)
    ensures note == PrimeEntry <==> b.InPrimeBand()
    ensures note == Overextended <==> b.Above(10.0)
    ensures note == Consolidating <==> !b.InPrimeBand() && !b.Above(10.0)
  {
    if b.InPrimeBand() then PrimeEntry
    else if b.Above(10.0) then Overextended
    else Consolidating
  }

  function VolNoteOf(ind: Indicators): (note: VolNote)
    ensures note == Shrinking <==> ind.volToday < ind.volYesterday
  {
    if ind.VolumeShrinks() then Shrinking else Increasing
  }

  /** The reference stop, 3% under MA20. */
  function StopOf(ma20: real): (stop: real)
    ensures ma20 - stop == ma20 * 0.03
    ensures ma20 > 0.0 ==> stop < ma20
  {
    ma20 * 0.97
  }

  /** The output row of one symbol. */
  datatype Report = Report(
    sid: string,
    close: real,
    bias: ExtReal,
    volLots: real,
    volNote: VolNote,
    score: int,
    buyNote: BuyNote,
    stop: real)

  /** The returned row: the symbol, the last close, the bias, today's lots,
      the notes, the clamped score and the stop. */
  function ReportOf(sid: string, ind: Indicators): (r: Report)
    ensures r.sid == sid && r.close == ind.close && r.volLots == ind.volToday
    ensures r.bias == BiasPct(ind.close, ind.ma20)
    ensures 0 <= r.score <= 100
    ensures r.score == 100 <==> ind.IsBull() && ind.IsTrendUp() && ind.HeavyVolume()
                                && ind.Bias().InPrimeBand() && !ind.VolumeShrinks()
    ensures r.buyNote == PrimeEntry <==> r.bias.InPrimeBand()
    ensures r.volNote == Shrinking <==> ind.volToday < ind.volYesterday
    ensures r.stop == ind.ma20 * 0.97
  {
    Report(sid, ind.close, ind.Bias(), ind.volToday, VolNoteOf(ind),
           Score(ind), BuyNoteOf(ind.Bias()), StopOf(ind.ma20))
  }

  /** What the routine returns for a fetched series: nothing for a series
      shorter than `MinBars`, otherwise the report of its indicators. */
  function Analysis(sid: string, bars: seq<Bar>): (r: Option<Report>)
    ensures r.Some? <==> |bars| >= MinBars
    ensures r.Some? ==> var n := |bars|;
      && r.value.sid == sid
      && r.value.close == bars[n - 1].close
      && r.value.volLots * 1000.0 == bars[n - 1].volume as real
      && r.value.stop == Mean(Closes(bars)[n - 20..]) * 0.97
      && 0 <= r.value.score <= 100
  {
    if |bars| < MinBars then None else Some(ReportOf(sid, IndicatorsOf(bars)))
  }

  /** The price frame of one symbol: the fetched columns, to which the
      moving-average columns are added in place. */
  class PriceFrame {
    const close: seq<real>
    const volume: seq<nat>
    var ma20: seq<Option<real>>
    var ma60: seq<Option<real>>

    /** A frame holding the fetched bars and no average columns yet. */
    constructor (bars: seq<Bar>)
      ensures close == Closes(bars) && volume == Volumes(bars)
      ensures ma20 == [] && ma60 == []
    {
      close := Closes(bars);
      volume := Volumes(bars);
      ma20 := [];
      ma60 := [];
    }

    /** Adds the MA20 and MA60 columns. */
    method AddMovingAverages()
      modifies this
      ensures ma20 == RollingColumn(close, ShortWindow)
      ensures ma60 == RollingColumn(close, LongWindow)
    {
      ma20 := RollingMean(close, ShortWindow);
      ma60 := RollingMean(close, LongWindow);
    }
  }

  /** The indicators read off the average columns of a frame at the last
      bar, the bar before and four bars before. */
  lemma ColumnsGiveIndicators(bars: seq<Bar>, ma20: seq<Option<real>>, ma60: seq<Option<real>>)
    requires |bars| >= MinBars
    requires ma20 == RollingColumn(Closes(bars), ShortWindow)
    requires ma60 == RollingColumn(Closes(bars), LongWindow)
    ensures var n := |bars|;
      IndicatorsOf(bars) == Indicators(bars[n - 1].close, ma20[n - 1].value, ma60[n - 1].value,
                                       ma60[n - 1 - TrendLookback],
                                       Lots(bars[n - 1].volume), Lots(bars[n - 2].volume))
  {
  }

  /** The additive rule applied step by step to the indicators of the last
      bar: the score with its clamp, the buy note and the volume note. */
  method Tally(ind: Indicators) returns (score: int, buyNote: BuyNote, volNote: VolNote)
    ensures score == Score(ind)
    ensures buyNote == BuyNoteOf(ind.Bias()) && volNote == VolNoteOf(ind)
  {
    var bias := ind.Bias();
    score := 0;
    if ind.IsBull() { score := score + 25; }
    if ind.IsTrendUp() { score := score + 25; }
    if ind.volToday > 1000.0 { score := score + 20; }
    if bias.Below(10.0) { score := score + 10; }

    buyNote := Consolidating;
    if bias.Above(0.0) && bias.AtMost(3.0) {
      score := score + 20;
      buyNote := PrimeEntry;
    } else if bias.Above(10.0) {
      buyNote := Overextended;
    }

    volNote := Increasing;
    if ind.volToday < ind.volYesterday {
      score := score - 10;
      volNote := Shrinking;
    }
    assert score == RawScore(ind);

    score := if 100 < score then 100 else score;
    score := if score < 0 then 0 else score;
  }

  /** Scores one symbol's price series: rejects a short series, adds the
      average columns, reads the last bars and tallies the score. */
  method AnalyzeStock(sid: string, bars: seq<Bar>) returns (res: Option<Report>)
    ensures res == Analysis(sid, bars)
    ensures res.Some? <==> |bars| >= MinBars
    ensures res.Some? ==> res.value.sid == sid && 0 <= res.value.score <= 100
  {
    if |bars| < MinBars {
      return None;
    }
    var df := new PriceFrame(bars);
    df.AddMovingAverages();
    var n := |bars|;

    var lastClose := df.close[n - 1];
    var lastMa20 := df.ma20[n - 1].value;
    var lastMa60 := df.ma60[n - 1].value;
    var prevMa60 := df.ma60[n - 1 - TrendLookback];

    var volToday := df.volume[n - 1] as real / LotSize;
    var volYesterday := df.volume[n - 2] as real / LotSize;
    var bias := BiasPct(lastClose, lastMa20);

    var ind := Indicators(lastClose, lastMa20, lastMa60, prevMa60, volToday, volYesterday);
    ColumnsGiveIndicators(bars, df.ma20, df.ma60);
    assert bias == ind.Bias();

    var score, buyNote, volNote := Tally(ind);
    res := Some(Report(sid, lastClose, bias, volToday, volNote, score, buyNote, lastMa20 * 0.97));
  }

  /** The MA60 rises over the last four bars exactly when the four newest
      closes add up to more than the four closes that left the window. */
  lemma TrendUpIff(bars: seq<Bar>)
    requires |bars| >= MinBars + TrendLookback
    ensures var xs, n := Closes(bars), |bars|;
      IndicatorsOf(bars).IsTrendUp() <==> Sum(xs[n - 4..n]) > Sum(xs[n - 64..n - 60])
  {
    var xs, n := Closes(bars), |bars|;
    var ind := IndicatorsOf(bars);
    SumSplit(xs, n - 60, n - 4, n);
    SumSplit(xs, n - 64, n - 60, n - 4);
    assert xs[n - 60..] == xs[n - 60..n];
    var now, before := Sum(xs[n - 60..n]), Sum(xs[n - 64..n - 4]);
    assert ind.ma60 == now / 60.0 && ind.prevMa60.value == before / 60.0;
    assert ind.ma60 > ind.prevMa60.value <==> now > before;
  }

  /** With 60 to 63 bars the earlier MA60 is undefined, so the trend bonus
      never applies and the score cannot reach 100. */
  lemma NoTrendBonusBeforeLookback(bars: seq<Bar>)
    requires MinBars <= |bars| < MinBars + TrendLookback
    ensures !IndicatorsOf(bars).IsTrendUp()
    ensures Score(IndicatorsOf(bars)) <= 75
  {
    var ind := IndicatorsOf(bars);
    assert ind.prevMa60 == None;
  }

  /** A flat series: both averages equal the price, the bias is zero, so
      neither the bullish-alignment nor the prime-entry bonus applies, the
      long average is not rising, the note is consolidating and the stop is
      97% of the price. For a positive price the score is at most 30. */
  lemma ConstantSeries(bars: seq<Bar>, c: real)
    requires |bars| >= MinBars
    requires forall i :: 0 <= i < |bars| ==> bars[i].close == c
    ensures var ind := IndicatorsOf(bars);
      && ind.ma20 == c && ind.ma60 == c
      && (c != 0.0 ==> ind.Bias() == Num(0.0))
      && !ind.IsBull() && !ind.IsTrendUp() && !ind.Bias().InPrimeBand()
      && BuyNoteOf(ind.Bias()) == Consolidating
      && StopOf(ind.ma20) == c * 0.97
      && Score(ind) <= 30
  {
    var xs, n := Closes(bars), |bars|;
    var ind := IndicatorsOf(bars);
    MeanOfConstant(xs[n - 20..], c);
    MeanOfConstant(xs[n - 60..], c);
    if n >= MinBars + TrendLookback {
      MeanOfConstant(xs[n - 64..n - 4], c);
    }
  }

  /** In price terms, for a positive MA20: the prime-entry band is a close
      above MA20 by at most 3%, overextension is a close more than 10% above
      it, and the +10 bonus is a close less than 10% above it; a close exactly
      10% above gets neither. */
  lemma BiasBandsInPrice(close: real, ma20: real)
    requires ma20 > 0.0
    ensures BiasPct(close, ma20).InPrimeBand() <==> ma20 < close <= ma20 * 1.03
    ensures BiasPct(close, ma20).Above(10.0) <==> close > ma20 * 1.1
    ensures BiasPct(close, ma20).Below(10.0) <==> close < ma20 * 1.1
  {
    var b := BiasPct(close, ma20).v;
    assert b * ma20 == (close - ma20) * 100.0;
    ProductSign(b, ma20);
    assert b > 0.0 <==> close > ma20;
    var x := b - 3.0;
    assert x * ma20 == (close - ma20 * 1.03) * 100.0;
    ProductSign(x, ma20);
    assert b <= 3.0 <==> close <= ma20 * 1.03;
    var y := b - 10.0;
    assert y * ma20 == (close - ma20 * 1.1) * 100.0;
    ProductSign(y, ma20);
    assert b > 10.0 <==> close > ma20 * 1.1;
    assert b < 10.0 <==> close < ma20 * 1.1;
  }

  /** Multiplying by a positive number keeps the sign. */
  lemma ProductSign(x: real, m: real)
    requires m > 0.0
    ensures x * m > 0.0 <==> x > 0.0
    ensures x * m < 0.0 <==> x < 0.0
  {
    if x > 0.0 { assert x * m > 0.0; }
    if x < 0.0 { assert (-x) * m > 0.0; }
  }

  /** Yesterday's volume enters the score only through the volume penalty:
      changing it moves the raw score by exactly 10 when the comparison with
      today's volume flips, and leaves it unchanged otherwise. */
  lemma VolumePenaltyIsolated(ind: Indicators, yesterday: real)
    ensures var moved := ind.(volYesterday := yesterday);
      RawScore(moved) == RawScore(ind.(volYesterday := ind.volToday))
                          - (if ind.volToday < yesterday then 10 else 0)
  {
  }
}
