/** The breakout engine: five pattern checks over the latest candle, tried
    in a fixed order, a 0-100 confirmation score, and the index scan that
    keeps and ranks the well-confirmed breakouts. */
module Breakouts {
  import opened Candles
  import opened Ranking

  /** Candles needed before any check runs; also the width of the rolling
      high, low and volume windows. */
  const Lookback: nat := 20
  const MinPriceMove: real := 2.0
  const MinVolumeIncrease: real := 1.5
  /** Confirmation a breakout needs to survive the index scan. */
  const ScanThreshold: int := 30

  datatype BreakoutKind =
    | ResistanceBreakout
    | SupportBreakdown
    | MaBreakoutBullish
    | VolumeBreakout
    | AthBreakout(athDistance: real, attempts: nat)

  /** What a pattern check reports: the kind, the level that was broken and
      the size of the move in percent. */
  datatype Pattern = Pattern(kind: BreakoutKind, level: real, strength: real)

  datatype Breakout = Breakout(
    kind: BreakoutKind,
    level: real,
    currentPrice: real,
    strength: real,
    priceChangePct: real,
    volumeRatio: real,
    confirmation: int,
    timeframe: string)

  function Last(s: seq<Candle>): Candle
    requires |s| > 0
  {
    s[|s| - 1]
  }

  function Prev(s: seq<Candle>): Candle
    requires |s| > 1
  {
    s[|s| - 2]
  }

  /** The window of `Lookback` candles just before the last one. */
  ghost predicate InPrior(s: seq<Candle>, k: int) {
    |s| - 1 - Lookback <= k <= |s| - 2
  }

  /** The 20-candle rolling high one candle back: undefined until 21
      candles are available. */
  function Resistance(s: seq<Candle>): (r: Option<real>)
    requires |s| >= 2 && Priced(s)
    ensures r.Some? <==> |s| > Lookback
    ensures r.Some? ==> r.value > 0.0
    ensures r.Some? ==> forall k :: InPrior(s, k) ==> s[k].high <= r.value
    ensures r.Some? ==> exists k :: InPrior(s, k) && s[k].high == r.value
  {
    var hs := Highs(s);
    assert forall k :: 0 <= k < |hs| ==> hs[k] > 0.0;
    RollingMax(hs, Lookback, |s| - 2)
  }

  /** The 20-candle rolling low one candle back. */
  function Support(s: seq<Candle>): (r: Option<real>)
    requires |s| >= 2 && Priced(s)
    ensures r.Some? <==> |s| > Lookback
    ensures r.Some? ==> r.value > 0.0
    ensures r.Some? ==> forall k :: InPrior(s, k) ==> r.value <= s[k].low
    ensures r.Some? ==> exists k :: InPrior(s, k) && s[k].low == r.value
  {
    var ls := Lows(s);
    assert forall k :: 0 <= k < |ls| ==> ls[k] > 0.0;
    RollingMin(ls, Lookback, |s| - 2)
  }

  /** Simple moving average of `w` closes ending at position `p`. */
  function Sma(s: seq<Candle>, w: nat, p: int): (r: real)
    requires Priced(s) && 0 < w && w - 1 <= p < |s|
    ensures r > 0.0
  {
    var cs := Closes(s)[p + 1 - w .. p + 1];
    assert forall k :: 0 <= k < |cs| ==> cs[k] == s[p + 1 - w + k].close;
    Mean(cs)
  }

  /** Mean volume of the last 20 candles, the current one included. */
  function AvgVolume(s: seq<Candle>): (r: real)
    requires |s| >= Lookback && Priced(s)
    ensures r >= 0.0
  {
    var vs := Volumes(s)[|s| - Lookback ..];
    assert forall k :: 0 <= k < |vs| ==> vs[k] == s[|s| - Lookback + k].volume;
    Mean(vs)
  }

  /** Resistance breakout: the high clears the prior 20-candle high and the
      close is at least 2% above it. */
  function ResistanceCheck(s: seq<Candle>): (r: Option<Pattern>)
    requires |s| >= Lookback && Priced(s)
    ensures r.Some? <==>
              Resistance(s).Some? && Last(s).high > Resistance(s).value
              && Last(s).close >= 1.02 * Resistance(s).value
    ensures r.Some? ==> r.value.kind == ResistanceBreakout && r.value.level == Resistance(s).value
    ensures r.Some? ==> r.value.strength == Pct(r.value.level, Last(s).close)
    ensures r.Some? ==> r.value.strength >= MinPriceMove
  {
    match Resistance(s)
    case None => None
    case Some(level) =>
      var move := Pct(level, Last(s).close);
      RiseAtLeast(level, Last(s).close, MinPriceMove);
      if Last(s).high > level && move >= MinPriceMove then
        Some(Pattern(ResistanceBreakout, level, move))
      else None
  }

  /** Support breakdown: the close falls at least 2% below the prior
      20-candle low. */
  function SupportCheck(s: seq<Candle>): (r: Option<Pattern>)
    requires |s| >= Lookback && Priced(s)
    ensures r.Some? <==> Support(s).Some? && Last(s).close <= 0.98 * Support(s).value
    ensures r.Some? ==> r.value.kind == SupportBreakdown && r.value.level == Support(s).value
    ensures r.Some? ==> r.value.strength == DropPct(r.value.level, Last(s).close)
    ensures r.Some? ==> r.value.strength >= MinPriceMove
  {
    match Support(s)
    case None => None
    case Some(level) =>
      var move := DropPct(level, Last(s).close);
      FallAtLeast(level, Last(s).close, MinPriceMove);
      if Last(s).close < level && move >= MinPriceMove then
        Some(Pattern(SupportBreakdown, level, move))
      else None
  }

  /** Bullish moving-average breakout: with at least 50 candles, the 20-SMA
      above the 50-SMA, the previous close at or below its 20-SMA, and the
      close at least 1% above the current 20-SMA. */
  function MaCheck(s: seq<Candle>): (r: Option<Pattern>)
    requires |s| >= Lookback && Priced(s)
    ensures r.Some? <==>
              && |s| >= 50
              && Sma(s, 20, |s| - 1) > Sma(s, 50, |s| - 1)
              && Prev(s).close <= Sma(s, 20, |s| - 2)
              && Last(s).close >= 1.01 * Sma(s, 20, |s| - 1)
    ensures r.Some? ==> r.value.kind == MaBreakoutBullish && r.value.level == Sma(s, 20, |s| - 1)
    ensures r.Some? ==> r.value.strength == Pct(r.value.level, Last(s).close)
    ensures r.Some? ==> r.value.strength >= 1.0
  {
    if |s| < 50 then None
    else
      var close := Last(s).close;
      var sma20 := Sma(s, 20, |s| - 1);
      var sma50 := Sma(s, 50, |s| - 1);
      RiseAtLeast(sma20, close, 1.0);
      if close > sma20 && sma20 > sma50 then
        if Prev(s).close <= Sma(s, 20, |s| - 2) && close > sma20 then
          var move := Pct(sma20, close);
          if move >= 1.0 then Some(Pattern(MaBreakoutBullish, sma20, move)) else None
        else None
      else None
  }

  /** Volume breakout: volume above 1.5 times its 20-candle mean and a move
      of at least 3% either way from the previous close. */
  function VolumeCheck(s: seq<Candle>): (r: Option<Pattern>)
    requires |s| >= Lookback && Priced(s)
    ensures r.Some? <==>
              && Last(s).volume > AvgVolume(s) * MinVolumeIncrease
              && (Last(s).close >= 1.03 * Prev(s).close || Last(s).close <= 0.97 * Prev(s).close)
    ensures r.Some? ==> r.value.kind == VolumeBreakout && r.value.level == Prev(s).close
    ensures r.Some? ==> r.value.strength == Abs(Pct(Prev(s).close, Last(s).close))
    ensures r.Some? ==> r.value.strength >= 3.0
  {
    if Last(s).volume > AvgVolume(s) * MinVolumeIncrease then
      var change := Pct(Prev(s).close, Last(s).close);
      MoveAtLeast(Prev(s).close, Last(s).close, 3.0);
      if Abs(change) >= 3.0 then Some(Pattern(VolumeBreakout, Prev(s).close, Abs(change))) else None
    else None
  }

  /** A move of at least `p` percent either way. */
  lemma MoveAtLeast(base: real, x: real, p: real)
    requires base > 0.0
    ensures Abs(Pct(base, x)) >= p <==> x >= base * (1.0 + p / 100.0) || x <= base * (1.0 - p / 100.0)
  {
    RiseAtLeast(base, x, p);
    FallAtLeast(base, x, p);
    assert (base - x) / base * 100.0 == -Pct(base, x);
  }

  /** The all-time high of the series. */
  function AthLevel(s: seq<Candle>): (r: real)
    requires |s| > 0 && Priced(s)
    ensures r > 0.0
    ensures forall k :: 0 <= k < |s| ==> s[k].high <= r
    ensures exists k :: 0 <= k < |s| && s[k].high == r
  {
    var hs := Highs(s);
    var m := Max(hs);
    assert exists k :: 0 <= k < |hs| && hs[k] == m;
    m
  }

  /** A high within 2% of the all-time high. */
  predicate NearAth(h: real, ath: real)
    requires ath > 0.0
  {
    (ath - h) / ath * 100.0 <= 2.0
  }

  /** A high is near the all-time high exactly when it reaches 98% of it. */
  lemma NearAthMeans(h: real, ath: real)
    requires ath > 0.0
    ensures NearAth(h, ath) <==> h >= 0.98 * ath
  {
    FallAtLeast(ath, h, 2.0);
    if (ath - h) / ath * 100.0 == 2.0 {
      assert h == ath * (1.0 - 2.0 / 100.0);
    }
  }

  function CountNearAth(hs: seq<real>, ath: real): (n: nat)
    requires ath > 0.0
    ensures n <= |hs|
    ensures n > 0 <==> exists k :: 0 <= k < |hs| && NearAth(hs[k], ath)
    ensures n == |hs| <==> forall k :: 0 <= k < |hs| ==> NearAth(hs[k], ath)
  {
    if hs == [] then 0
    else
      var rest := CountNearAth(hs[1..], ath);
      assert forall k :: 1 <= k < |hs| ==> hs[k] == hs[1..][k - 1];
      (if NearAth(hs[0], ath) then 1 else 0) + rest
  }
  /** At least two highs are near the all-time high exactly when two
      distinct positions hold near highs. */
  lemma {:induction false} TwoNearAth(hs: seq<real>, ath: real)
    requires ath > 0.0
    ensures CountNearAth(hs, ath) >= 2 <==>
              exists i, j :: 0 <= i < j < |hs| && NearAth(hs[i], ath) && NearAth(hs[j], ath)
  {
    if hs != [] {
      var tail := hs[1..];
      TwoNearAth(tail, ath);
      assert forall k :: 1 <= k < |hs| ==> hs[k] == tail[k - 1];
      if exists i, j :: 0 <= i < j < |hs| && NearAth(hs[i], ath) && NearAth(hs[j], ath) {
        var i, j :| 0 <= i < j < |hs| && NearAth(hs[i], ath) && NearAth(hs[j], ath);
        if i > 0 {
          assert NearAth(tail[i - 1], ath) && NearAth(tail[j - 1], ath);
        } else {
          assert NearAth(tail[j - 1], ath);
        }
      }
      if CountNearAth(hs, ath) >= 2 {
        if NearAth(hs[0], ath) {
          var k :| 0 <= k < |tail| && NearAth(tail[k], ath);
          assert NearAth(hs[k + 1], ath);
        } else {
          var i, j :| 0 <= i < j < |tail| && NearAth(tail[i], ath) && NearAth(tail[j], ath);
          assert NearAth(hs[i + 1], ath) && NearAth(hs[j + 1], ath);
        }
      }
    }
  }


  /** How many of the last 10 highs come within 2% of the all-time high. */
  function Attempts(s: seq<Candle>): (n: nat)
    requires |s| >= 10 && Priced(s)
    ensures n <= 10
  {
    CountNearAth(Highs(s)[|s| - 10 ..], AthLevel(s))
  }

  /** Two highs near the all-time high are two highs reaching 98% of it. */
  lemma TwoReaching(hs: seq<real>, ath: real)
    requires ath > 0.0
    ensures CountNearAth(hs, ath) >= 2 <==>
              exists i, j :: 0 <= i < j < |hs| && hs[i] >= 0.98 * ath && hs[j] >= 0.98 * ath
  {
    TwoNearAth(hs, ath);
    forall k | 0 <= k < |hs| ensures NearAth(hs[k], ath) <==> hs[k] >= 0.98 * ath {
      NearAthMeans(hs[k], ath);
    }
  }

  /** A pair among the last ten highs is a pair among the last ten candles. */
  lemma LastTenPair(s: seq<Candle>, hs: seq<real>, t: real)
    requires |s| >= 10 && |hs| == 10
    requires forall k {:trigger hs[k]} :: 0 <= k < 10 ==> hs[k] == s[|s| - 10 + k].high
    ensures (exists i, j :: 0 <= i < j < |hs| && hs[i] >= t && hs[j] >= t) <==>
              (exists i, j :: |s| - 10 <= i < j < |s| && s[i].high >= t && s[j].high >= t)
  {
    if exists i, j :: |s| - 10 <= i < j < |s| && s[i].high >= t && s[j].high >= t {
      CandlePairIsHighPair(s, hs, t);
    }
    if exists i, j :: 0 <= i < j < |hs| && hs[i] >= t && hs[j] >= t {
      HighPairIsCandlePair(s, hs, t);
    }
  }

  lemma CandlePairIsHighPair(s: seq<Candle>, hs: seq<real>, t: real)
    requires |s| >= 10 && |hs| == 10
    requires forall k {:trigger hs[k]} :: 0 <= k < 10 ==> hs[k] == s[|s| - 10 + k].high
    requires exists i, j :: |s| - 10 <= i < j < |s| && s[i].high >= t && s[j].high >= t
    ensures exists i, j :: 0 <= i < j < |hs| && hs[i] >= t && hs[j] >= t
  {
    var off := |s| - 10;
    var i, j :| off <= i < j < |s| && s[i].high >= t && s[j].high >= t;
    assert hs[i - off] >= t && hs[j - off] >= t;
  }

  lemma HighPairIsCandlePair(s: seq<Candle>, hs: seq<real>, t: real)
    requires |s| >= 10 && |hs| == 10
    requires forall k {:trigger hs[k]} :: 0 <= k < 10 ==> hs[k] == s[|s| - 10 + k].high
    requires exists i, j :: 0 <= i < j < |hs| && hs[i] >= t && hs[j] >= t
    ensures exists i, j :: |s| - 10 <= i < j < |s| && s[i].high >= t && s[j].high >= t
  {
    var off := |s| - 10;
    var i, j :| 0 <= i < j < |hs| && hs[i] >= t && hs[j] >= t;
    assert s[off + i].high >= t && s[off + j].high >= t;
  }

  /** The attempt count reaches two exactly when two of the last ten highs
      reach 98% of the all-time high. */
  lemma AttemptsMeans(s: seq<Candle>)
    requires |s| >= Lookback && Priced(s)
    ensures Attempts(s) >= 2 <==>
              exists i, j :: |s| - 10 <= i < j < |s| && s[i].high >= 0.98 * AthLevel(s) && s[j].high >= 0.98 * AthLevel(s)
  {
    var hs := Highs(s)[|s| - 10 ..];
    TwoReaching(hs, AthLevel(s));
    LastTenPair(s, hs, 0.98 * AthLevel(s));
  }

  /** All-time-high breakout attempt: within 5% of the high, at least two
      recent highs near it, volume above 1.3 times its mean, and the close
      above 98% of the high. */
  function AthCheck(s: seq<Candle>): (r: Option<Pattern>)
    requires |s| >= Lookback && Priced(s)
    ensures r.Some? <==>
              && Attempts(s) >= 2
              && Last(s).volume > AvgVolume(s) * 1.3
              && Last(s).close > AthLevel(s) * 0.98
    ensures r.Some? ==>
              && r.value.kind == AthBreakout(DropPct(AthLevel(s), Last(s).close), Attempts(s))
              && r.value.level == AthLevel(s)
              && r.value.strength >= 3.0
  {
    var ath := AthLevel(s);
    var close := Last(s).close;
    var distance := DropPct(ath, close);
    NearHighMove(ath, close);
    if distance <= 5.0 then
      var attempts := Attempts(s);
      if attempts >= 2 && Last(s).volume > AvgVolume(s) * 1.3 then
        if close > ath * 0.98 then
          var move := Pct(ath * 0.95, close);
          Some(Pattern(AthBreakout(distance, attempts), ath, MaxOf(move, MinPriceMove)))
        else None
      else None
    else None
  }

  /** A close above 98% of the high is within 5% of it and more than 3%
      above 95% of it. */
  lemma NearHighMove(ath: real, close: real)
    requires ath > 0.0
    ensures close > ath * 0.98 ==> DropPct(ath, close) <= 5.0 && Pct(ath * 0.95, close) >= 3.0
  {
    if close > ath * 0.98 {
      FallAtLeast(ath, close, 5.0);
      RiseAtLeast(ath * 0.95, close, 3.0);
    }
  }

  /** The `max(move, 2.0)` floor of the all-time-high strength never
      applies: the close above 98% of the high already gives a move above
      3% over 95% of the high. */
  lemma AthFloorNeverApplies(s: seq<Candle>)
    requires |s| >= Lookback && Priced(s)
    requires AthCheck(s).Some?
    ensures AthCheck(s).value.strength == Pct(AthLevel(s) * 0.95, Last(s).close)
  {
    NearHighMove(AthLevel(s), Last(s).close);
  }

  /** The first present result, and where it was found. */
  function FirstMatch(cs: seq<Option<Pattern>>): (r: Option<Pattern>)
    ensures r.None? <==> forall i :: 0 <= i < |cs| ==> cs[i].None?
    ensures r.Some? ==> exists i :: 0 <= i < |cs| && cs[i] == r && forall j :: 0 <= j < i ==> cs[j].None?
  {
    if cs == [] then None
    else if cs[0].Some? then cs[0]
    else
      var r := FirstMatch(cs[1..]);
      assert forall i :: 1 <= i < |cs| ==> cs[i] == cs[1..][i - 1];
      r
  }

  /** The check tried at position `i` of the priority order. */
  function CheckAt(s: seq<Candle>, i: nat): (r: Option<Pattern>)
    requires |s| >= Lookback && Priced(s) && i < 5
    ensures r.Some? ==> CheckIndex(r.value.kind) == i
  {
    if i == 0 then ResistanceCheck(s)
    else if i == 1 then SupportCheck(s)
    else if i == 2 then MaCheck(s)
    else if i == 3 then VolumeCheck(s)
    else AthCheck(s)
  }

  /** The checks in the order they are tried. */
  function Checks(s: seq<Candle>): (r: seq<Option<Pattern>>)
    requires |s| >= Lookback && Priced(s)
    ensures |r| == 5
    ensures forall i :: 0 <= i < 5 ==> r[i] == CheckAt(s, i)
  {
    seq(5, i requires 0 <= i < 5 => CheckAt(s, i))
  }

  function Analyze(s: seq<Candle>): (r: Option<Pattern>)
    requires |s| >= Lookback && Priced(s)
    ensures r.None? <==> forall i :: 0 <= i < 5 ==> Checks(s)[i].None?
    ensures r.Some? ==> exists i :: 0 <= i < 5 && Checks(s)[i] == r && forall j :: 0 <= j < i ==> Checks(s)[j].None?
  {
    FirstMatch(Checks(s))
  }

  /** The kind a check reports identifies the check. */
  function CheckIndex(k: BreakoutKind): nat {
    match k
    case ResistanceBreakout => 0
    case SupportBreakdown => 1
    case MaBreakoutBullish => 2
    case VolumeBreakout => 3
    case AthBreakout(_, _) => 4
  }

  /** The pattern reported is the one its own check produced, and every
      check tried before it found nothing: a resistance breakout hides any
      simultaneous volume breakout, and so on down the order. */
  lemma AnalyzePriority(s: seq<Candle>)
    requires |s| >= Lookback && Priced(s)
    requires Analyze(s).Some?
    ensures Checks(s)[CheckIndex(Analyze(s).value.kind)] == Analyze(s)
    ensures forall j :: 0 <= j < CheckIndex(Analyze(s).value.kind) ==> Checks(s)[j].None?
  {
    FirstMatchAt(Checks(s));
  }

  /** When every present entry sits at the index of its kind, the first
      match is found at the index of its own kind. */
  lemma FirstMatchAt(cs: seq<Option<Pattern>>)
    requires |cs| == 5
    requires forall i :: 0 <= i < 5 && cs[i].Some? ==> CheckIndex(cs[i].value.kind) == i
    requires FirstMatch(cs).Some?
    ensures cs[CheckIndex(FirstMatch(cs).value.kind)] == FirstMatch(cs)
    ensures forall j :: 0 <= j < CheckIndex(FirstMatch(cs).value.kind) ==> cs[j].None?
  {
  }

  /** Whenever the resistance check fires, it is what is reported. */
  lemma ResistanceWins(s: seq<Candle>)
    requires |s| >= Lookback && Priced(s)
    requires ResistanceCheck(s).Some?
    ensures Analyze(s) == ResistanceCheck(s)
  {
    assert Checks(s)[0] == ResistanceCheck(s);
  }

  /** The resistance check in terms of the prior candles alone: the last
      high clears each of them and the close is 2% above each of their
      highs. With exactly 20 candles there is no prior window, so no
      resistance breakout. */
  lemma ResistanceMeans(s: seq<Candle>)
    requires |s| >= Lookback && Priced(s)
    ensures ResistanceCheck(s).Some? <==>
              |s| > Lookback &&
              forall k :: InPrior(s, k) ==> s[k].high < Last(s).high && 1.02 * s[k].high <= Last(s).close
  {
    if |s| > Lookback {
      var m := Resistance(s).value;
      var k0 :| InPrior(s, k0) && s[k0].high == m;
      if forall k :: InPrior(s, k) ==> s[k].high < Last(s).high && 1.02 * s[k].high <= Last(s).close {
        assert m < Last(s).high && 1.02 * m <= Last(s).close;
      }
    }
  }

  /** The support check in terms of the prior candles alone. */
  lemma SupportMeans(s: seq<Candle>)
    requires |s| >= Lookback && Priced(s)
    ensures SupportCheck(s).Some? <==>
              |s| > Lookback && forall k :: InPrior(s, k) ==> Last(s).close <= 0.98 * s[k].low
  {
    if |s| > Lookback {
      var m := Support(s).value;
      var k0 :| InPrior(s, k0) && s[k0].low == m;
      if forall k :: InPrior(s, k) ==> Last(s).close <= 0.98 * s[k].low {
        assert Last(s).close <= 0.98 * m;
      }
    }
  }

  /** Current volume over its 20-candle mean, or 1 when the mean is zero. */
  function VolumeRatio(s: seq<Candle>): (r: real)
    requires |s| >= Lookback && Priced(s)
    ensures r >= 0.0
  {
    var avg := AvgVolume(s);
    if avg > 0.0 then Last(s).volume / avg else 1.0
  }

  function VolumeTier(ratio: real): (p: int)
    ensures p == 40 <==> ratio >= 2.0
    ensures p == 25 <==> 1.5 <= ratio < 2.0
    ensures p == 15 <==> 1.2 <= ratio < 1.5
    ensures p == 0 <==> ratio < 1.2
  {
    if ratio >= 2.0 then 40 else if ratio >= 1.5 then 25 else if ratio >= 1.2 then 15 else 0
  }

  function StrengthTier(strength: real): (p: int)
    ensures p == 30 <==> strength >= 5.0
    ensures p == 20 <==> 3.0 <= strength < 5.0
    ensures p == 10 <==> 2.0 <= strength < 3.0
    ensures p == 0 <==> strength < 2.0
  {
    if strength >= 5.0 then 30 else if strength >= 3.0 then 20 else if strength >= 2.0 then 10 else 0
  }

  /** Pattern reliability: ATH 30, resistance 25, support 20, moving
      average 15, volume 10. */
  function PatternBonus(kind: BreakoutKind): (p: int)
    ensures 10 <= p <= 30
  {
    match kind
    case AthBreakout(_, _) => 30
    case ResistanceBreakout => 25
    case SupportBreakdown => 20
    case MaBreakoutBullish => 15
    case VolumeBreakout => 10
  }

  function MinInt(a: int, b: int): int { if a <= b then a else b }

  /** The three parts summed, capped at 100. */
  function Confirmation(ratio: real, strength: real, kind: BreakoutKind): (c: int)
    ensures 10 <= c <= 100
    ensures c == VolumeTier(ratio) + StrengthTier(strength) + PatternBonus(kind)
  {
    MinInt(VolumeTier(ratio) + StrengthTier(strength) + PatternBonus(kind), 100)
  }

  /** More volume or a larger move never lowers the confirmation. */
  lemma ConfirmationMonotone(r1: real, r2: real, s1: real, s2: real, kind: BreakoutKind)
    requires r1 <= r2 && s1 <= s2
    ensures Confirmation(r1, s1, kind) <= Confirmation(r2, s2, kind)
  {
  }

  /** Every pattern except the moving-average breakout clears the scan
      threshold on its own; a volume breakout always reaches 55. */
  lemma DetectedClearsScan(s: seq<Candle>)
    requires |s| >= Lookback && Priced(s)
    requires Analyze(s).Some? && !Analyze(s).value.kind.MaBreakoutBullish?
    ensures Confirmation(VolumeRatio(s), Analyze(s).value.strength, Analyze(s).value.kind) >= ScanThreshold
    ensures Analyze(s).value.kind.VolumeBreakout? ==>
              Confirmation(VolumeRatio(s), Analyze(s).value.strength, Analyze(s).value.kind) >= 55
  {
    var p := Analyze(s).value;
    AnalyzePriority(s);
    var i := CheckIndex(p.kind);
    assert Checks(s)[i] == Some(p);
    if i == 3 {
      assert VolumeCheck(s) == Some(p);
      VolumeRatioAbove(s);
    } else {
      assert p.strength >= 2.0 by {
        if i == 0 {
          assert ResistanceCheck(s) == Some(p);
        } else if i == 1 {
          assert SupportCheck(s) == Some(p);
        } else {
          assert AthCheck(s) == Some(p);
        }
      }
    }
  }

  /** Volume above 1.5 times its mean gives a ratio above 1.5. */
  lemma VolumeRatioAbove(s: seq<Candle>)
    requires |s| >= Lookback && Priced(s)
    requires Last(s).volume > AvgVolume(s) * MinVolumeIncrease
    ensures VolumeRatio(s) > MinVolumeIncrease
  {
    AvgVolumePositive(s);
    QuotientAbove(Last(s).volume, AvgVolume(s), MinVolumeIncrease);
  }

  /** A positive current volume makes the mean it belongs to positive. */
  lemma AvgVolumePositive(s: seq<Candle>)
    requires |s| >= Lookback && Priced(s) && Last(s).volume > 0.0
    ensures AvgVolume(s) > 0.0
  {
    var vs := Volumes(s)[|s| - Lookback ..];
    assert vs[Lookback - 1] == Last(s).volume;
    // the current volume is one of the non-negative volumes averaged
    SumAtLeastElement(vs, Lookback - 1);
    assert AvgVolume(s) == Sum(vs) / 20.0;
  }

  lemma QuotientAbove(v: real, avg: real, m: real)
    requires avg > 0.0 && v > avg * m
    ensures v / avg > m
  {
    var q := v / avg;
    assert q * avg == v;
    assert (q - m) * avg > 0.0;
  }

  /** A moving-average breakout on ordinary volume with a move below 2%
      scores 15 and is dropped by the scan. */
  lemma QuietMaBreakoutDropped(ratio: real, strength: real)
    requires ratio < 1.2 && strength < 2.0
    ensures Confirmation(ratio, strength, MaBreakoutBullish) == 15
    ensures Confirmation(ratio, strength, MaBreakoutBullish) < ScanThreshold
  {
  }

  /** Runs the checks on a series of at least 20 candles and attaches the
      price, change, volume ratio, confirmation and timeframe. */
  function DetectBreakout(data: Option<seq<Candle>>, timeframe: string): (r: Option<Breakout>)
    requires data.Some? ==> Priced(data.value)
    ensures data.None? || |data.value| < Lookback ==> r.None?
    ensures data.Some? && |data.value| >= Lookback ==> (r.Some? <==> Analyze(data.value).Some?)
    ensures r.Some? ==>
              var s := data.value;
              && |s| >= Lookback
              && Analyze(s) == Some(Pattern(r.value.kind, r.value.level, r.value.strength))
              && r.value.currentPrice == Last(s).close
              && r.value.priceChangePct == Pct(Prev(s).close, Last(s).close)
              && r.value.volumeRatio == VolumeRatio(s)
              && r.value.confirmation == Confirmation(r.value.volumeRatio, r.value.strength, r.value.kind)
              && r.value.timeframe == timeframe
  {
    if data.None? || |data.value| < Lookback then None
    else
      var s := data.value;
      match Analyze(s)
      case None => None
      case Some(p) =>
        var ratio := VolumeRatio(s);
        Some(Breakout(p.kind, p.level, Last(s).close, p.strength, Pct(Prev(s).close, Last(s).close),
                      ratio, Confirmation(ratio, p.strength, p.kind), timeframe))
  }

  datatype Hit = Hit(symbol: string, formattedSymbol: string, breakout: Breakout)

  /** Market data source: symbol, period and interval to candles, or
      nothing when the download fails. */
  type Fetcher = (string, string, string) -> Option<seq<Candle>>

  function NseSymbol(symbol: string): (r: string)
    ensures |r| == |symbol| + 3 && r[..|symbol|] == symbol && r[|symbol|..] == ".NS"
  {
    symbol + ".NS"
  }

  /** The fetcher returns positive prices for every symbol of the index. */
  ghost predicate PricedFeed(fetch: Fetcher, symbols: seq<string>, period: string, timeframe: string) {
    forall sym :: sym in symbols ==>
      var d := fetch(NseSymbol(sym), period, timeframe);
      d.Some? ==> Priced(d.value)
  }

  /** The breakout of one symbol, if it is confirmed well enough to be kept. */
  function Kept(fetch: Fetcher, sym: string, period: string, timeframe: string): (r: Option<Breakout>)
    requires var d := fetch(NseSymbol(sym), period, timeframe); d.Some? ==> Priced(d.value)
    ensures r.Some? <==>
              var b := DetectBreakout(fetch(NseSymbol(sym), period, timeframe), timeframe);
              b.Some? && b.value.confirmation >= ScanThreshold
    ensures r.Some? ==> r == DetectBreakout(fetch(NseSymbol(sym), period, timeframe), timeframe)
  {
    var d := fetch(NseSymbol(sym), period, timeframe);
    if d.Some? && |d.value| > 0 then
      var b := DetectBreakout(d, timeframe);
      if b.Some? && b.value.confirmation >= ScanThreshold then b else None
    else None
  }

  /** The scan loop: one hit per kept symbol, in index order. */
  function Collect(fetch: Fetcher, symbols: seq<string>, period: string, timeframe: string): (r: seq<Hit>)
    requires PricedFeed(fetch, symbols, period, timeframe)
    ensures |r| <= |symbols|
    ensures forall h :: h in r ==>
              && h.symbol in symbols
              && h.formattedSymbol == NseSymbol(h.symbol)
              && Kept(fetch, h.symbol, period, timeframe) == Some(h.breakout)
    ensures forall sym :: sym in symbols && Kept(fetch, sym, period, timeframe).Some? ==>
              exists h :: h in r && h.symbol == sym
  {
    if symbols == [] then []
    else
      var sym := symbols[0];
      var rest := Collect(fetch, symbols[1..], period, timeframe);
      var here := Kept(fetch, sym, period, timeframe);
      var r := if here.None? then rest else [Hit(sym, NseSymbol(sym), here.value)] + rest;
      CollectStep(fetch, symbols, period, timeframe, rest, r);
      r
  }

  /** Prepending the first symbol's hit keeps every kept symbol covered. */
  lemma CollectStep(fetch: Fetcher, symbols: seq<string>, period: string, timeframe: string,
                    rest: seq<Hit>, r: seq<Hit>)
    requires symbols != [] && PricedFeed(fetch, symbols, period, timeframe)
    requires var here := Kept(fetch, symbols[0], period, timeframe);
             r == if here.None? then rest else [Hit(symbols[0], NseSymbol(symbols[0]), here.value)] + rest
    requires forall h :: h in rest ==>
               && h.symbol in symbols[1..]
               && h.formattedSymbol == NseSymbol(h.symbol)
               && Kept(fetch, h.symbol, period, timeframe) == Some(h.breakout)
    requires forall sym :: sym in symbols[1..] && Kept(fetch, sym, period, timeframe).Some? ==>
               exists h :: h in rest && h.symbol == sym
    ensures forall h :: h in r ==>
              && h.symbol in symbols
              && h.formattedSymbol == NseSymbol(h.symbol)
              && Kept(fetch, h.symbol, period, timeframe) == Some(h.breakout)
    ensures forall sym :: sym in symbols && Kept(fetch, sym, period, timeframe).Some? ==>
              exists h :: h in r && h.symbol == sym
  {
    assert forall x :: x in symbols ==> x == symbols[0] || x in symbols[1..];
    forall sym | sym in symbols && Kept(fetch, sym, period, timeframe).Some?
      ensures exists h :: h in r && h.symbol == sym
    {
      if sym == symbols[0] {
        assert r[0].symbol == sym;
      } else {
        assert sym in symbols[1..];
        var h :| h in rest && h.symbol == sym;
        assert h in r;
      }
    }
  }

  predicate HitOutranks(a: Hit, b: Hit) {
    a.breakout.confirmation > b.breakout.confirmation
  }

  lemma HitOutranksIsStrictWeakOrder()
    ensures StrictWeakOrder(HitOutranks)
  {
  }

  /** The kept breakouts of an index, strongest confirmation first. */
  function ScanIndexBreakouts(fetch: Fetcher, symbols: seq<string>, period: string, timeframe: string): (r: seq<Hit>)
    requires PricedFeed(fetch, symbols, period, timeframe)
    ensures multiset(r) == multiset(Collect(fetch, symbols, period, timeframe))
    ensures forall i, j :: 0 <= i < j < |r| ==> r[i].breakout.confirmation >= r[j].breakout.confirmation
    ensures forall h :: h in r ==>
              && h.symbol in symbols
              && h.formattedSymbol == NseSymbol(h.symbol)
              && h.breakout.confirmation >= ScanThreshold
              && DetectBreakout(fetch(h.formattedSymbol, period, timeframe), timeframe) == Some(h.breakout)
    ensures forall sym :: sym in symbols && Kept(fetch, sym, period, timeframe).Some? ==>
              exists h :: h in r && h.symbol == sym
  {
    var hits := Collect(fetch, symbols, period, timeframe);
    HitOutranksIsStrictWeakOrder();
    SortRanked(hits, HitOutranks);
    var r := Sort(hits, HitOutranks);
    assert forall h :: h in r <==> h in hits by {
      forall h ensures h in r <==> h in hits {
        assert h in r <==> h in multiset(r);
        assert h in hits <==> h in multiset(hits);
      }
    }
    r
  }

  /** Breakouts with equal confirmation stay in index order. */
  lemma ScanKeepsIndexOrder(fetch: Fetcher, symbols: seq<string>, period: string, timeframe: string, k: Hit)
    requires PricedFeed(fetch, symbols, period, timeframe)
    ensures TiedWith(ScanIndexBreakouts(fetch, symbols, period, timeframe), k, HitOutranks)
            == TiedWith(Collect(fetch, symbols, period, timeframe), k, HitOutranks)
  {
    HitOutranksIsStrictWeakOrder();
    SortStable(Collect(fetch, symbols, period, timeframe), k, HitOutranks);
  }

  /** Summary labels for the move and the confirmation. */
  function StrengthLabel(strength: real): (l: string)
    ensures l == "Strong" <==> strength >= 5.0
    ensures l == "Moderate" <==> 3.0 <= strength < 5.0
    ensures l == "Weak" <==> strength < 3.0
  {
    if strength >= 5.0 then "Strong" else if strength >= 3.0 then "Moderate" else "Weak"
  }

  function ConfidenceLabel(confirmation: int): (l: string)
    ensures l == "High" <==> confirmation >= 70
    ensures l == "Medium" <==> 40 <= confirmation < 70
    ensures l == "Low" <==> confirmation < 40
  {
    if confirmation >= 70 then "High" else if confirmation >= 40 then "Medium" else "Low"
  }

  /** The strength label agrees with the strength points of the
      confirmation: "Strong" earns 30, "Moderate" 20, "Weak" at most 10. */
  lemma StrengthLabelMatchesTier(strength: real)
    ensures StrengthLabel(strength) == "Strong" <==> StrengthTier(strength) == 30
    ensures StrengthLabel(strength) == "Moderate" <==> StrengthTier(strength) == 20
    ensures StrengthLabel(strength) == "Weak" <==> StrengthTier(strength) <= 10
  {
  }

  /** The type names the breakout engine reports. */
  function KindName(kind: BreakoutKind): string {
    match kind
    case ResistanceBreakout => "resistance_breakout"
    case SupportBreakdown => "support_breakdown"
    case MaBreakoutBullish => "ma_breakout_bullish"
    case VolumeBreakout => "volume_breakout"
    case AthBreakout(_, _) => "ath_breakout"
  }
}
