/** The pure helpers of the dashboard: the breakout signal, the zone filter,
    the exchange symbol formatter and the higher-timeframe zone selection. */
module Dashboard {
  import opened Candles
  import opened Text
  import opened Zones
  import opened ZoneScoring
  import opened ZoneDetector
  import Breakouts

  datatype Signal = Buy | Sell | Watch | Neutral

  /** The trading signal shown for a breakout type name. */
  function SignalOf(breakoutType: string): (r: Signal)
    ensures r == Buy <==> breakoutType in ["resistance_breakout", "ma_breakout_bullish", "ath_breakout"]
    ensures r == Sell <==> breakoutType == "support_breakdown"
    ensures r == Watch <==> breakoutType == "volume_breakout"
  {
    if breakoutType in ["resistance_breakout", "ma_breakout_bullish", "ath_breakout"] then Buy
    else if breakoutType == "support_breakdown" then Sell
    else if breakoutType == "volume_breakout" then Watch
    else Neutral
  }

  /** Every kind the breakout engine reports gets a definite signal: buy
      for the three upward breakouts, sell for the breakdown, watch for a
      volume breakout. */
  lemma SignalOfEveryKind(k: Breakouts.BreakoutKind)
    ensures SignalOf(Breakouts.KindName(k)) != Neutral
    ensures SignalOf(Breakouts.KindName(k)) == Sell <==> k.SupportBreakdown?
    ensures SignalOf(Breakouts.KindName(k)) == Watch <==> k.VolumeBreakout?
  {
  }

  /** The user's filter selections. */
  datatype ZoneFilter = ZoneFilter(
    types: seq<string>,
    strengths: seq<string>,
    statuses: seq<string>,
    qualities: seq<string>,
    minReaction: real,
    htfOnly: bool)

  function TypeLabel(k: ZoneKind): string {
    if k == Demand then "Demand Zones" else "Supply Zones"
  }

  function StrengthName(s: Strength): string {
    match s
    case Strong => "Strong"
    case Medium => "Medium"
    case Weak => "Weak"
  }

  function StatusLabel(isFresh: bool): string {
    if isFresh then "Fresh" else "Tested"
  }

  function QualityLabel(q: Quality): string {
    if q == HighQuality then "High" else "Medium"
  }

  /** A zone passes all six filters. */
  predicate Passes(z: Zone, f: ZoneFilter) {
    && TypeLabel(z.kind) in f.types
    && StrengthName(z.strength) in f.strengths
    && StatusLabel(z.isFresh) in f.statuses
    && QualityLabel(z.quality) in f.qualities
    && !(z.reaction < f.minReaction)
    && (!f.htfOnly || HasHtfSupport(z))
  }

  /** `a` is `b` with some elements left out, order kept. */
  ghost predicate SubsequenceOf<T>(a: seq<T>, b: seq<T>)
    decreases |b|
  {
    if a == [] then true
    else if b == [] then false
    else (a[0] == b[0] && SubsequenceOf(a[1..], b[1..])) || SubsequenceOf(a, b[1..])
  }

  function FilterZones(zones: seq<Zone>, f: ZoneFilter): (r: seq<Zone>)
    ensures |r| <= |zones|
    ensures forall z :: z in r <==> z in zones && Passes(z, f)
    ensures SubsequenceOf(r, zones)
  {
    if zones == [] then []
    else
      var rest := FilterZones(zones[1..], f);
      assert forall z :: z in zones <==> z == zones[0] || z in zones[1..];
      if Passes(zones[0], f) then
        assert ([zones[0]] + rest)[1..] == rest;
        [zones[0]] + rest
      else rest
  }

  /** Filtering a concatenation filters each part. */
  lemma {:induction false} FilterAppend(a: seq<Zone>, b: seq<Zone>, f: ZoneFilter)
    ensures FilterZones(a + b, f) == FilterZones(a, f) + FilterZones(b, f)
  {
    if a == [] {
      assert a + b == b;
    } else {
      assert (a + b)[0] == a[0];
      assert (a + b)[1..] == a[1..] + b;
      FilterAppend(a[1..], b, f);
    }
  }

  /** Filtering twice with the same selections changes nothing. */
  lemma {:induction false} FilterIdempotent(zones: seq<Zone>, f: ZoneFilter)
    ensures FilterZones(FilterZones(zones, f), f) == FilterZones(zones, f)
  {
    if zones != [] {
      FilterIdempotent(zones[1..], f);
      if Passes(zones[0], f) {
        var r := FilterZones(zones, f);
        assert r == [zones[0]] + FilterZones(zones[1..], f);
        assert r[1..] == FilterZones(zones[1..], f);
      }
    }
  }

  /** Upper-cases the symbol; for an exchange whose name mentions NSE,
      appends ".NS" unless present, otherwise strips one trailing ".NS". */
  function FormatSymbol(symbol: string, exchange: string): (r: string)
    ensures Contains(exchange, "NSE") ==> EndsWith(r, ".NS") && IsUpper(r)
    ensures Contains(exchange, "NSE") && !EndsWith(Upper(symbol), ".NS") ==> r == Upper(symbol) + ".NS"
    ensures Contains(exchange, "NSE") && EndsWith(Upper(symbol), ".NS") ==> r == Upper(symbol)
    ensures !Contains(exchange, "NSE") ==>
              if EndsWith(Upper(symbol), ".NS") then r + ".NS" == Upper(symbol) else r == Upper(symbol)
  {
    var u := Upper(symbol);
    UpperMakesUpper(symbol);
    if Contains(exchange, "NSE") then
      if EndsWith(u, ".NS") then u
      else
        assert (u + ".NS")[|u + ".NS"| - 3 ..] == ".NS";
        u + ".NS"
    else
      if EndsWith(u, ".NS") then
        assert u[..|u| - 3] + u[|u| - 3 ..] == u;
        u[..|u| - 3]
      else u
  }

  /** Formatting for NSE twice is formatting once. */
  lemma FormatNseIdempotent(symbol: string, exchange: string)
    requires Contains(exchange, "NSE")
    ensures FormatSymbol(FormatSymbol(symbol, exchange), exchange) == FormatSymbol(symbol, exchange)
  {
    var r := FormatSymbol(symbol, exchange);
    UpperMakesUpper(r);
  }

  /** A plain symbol formatted for NSE and then for another exchange comes
      back upper-cased. */
  lemma FormatRoundTrip(symbol: string, nse: string, other: string)
    requires Contains(nse, "NSE") && !Contains(other, "NSE")
    requires !EndsWith(Upper(symbol), ".NS")
    ensures FormatSymbol(FormatSymbol(symbol, nse), other) == Upper(symbol)
  {
    var r := FormatSymbol(symbol, nse);
    UpperMakesUpper(r);
    assert r == Upper(symbol) + ".NS";
  }

  /** Higher timeframes consulted for each chart timeframe; none for weekly,
      monthly or unknown ones. */
  function HtfMapping(timeframe: string): (r: Option<seq<string>>)
    ensures r.Some? <==> timeframe in ["1m", "5m", "15m", "1h", "4h", "1d"]
    ensures r.Some? ==> 2 <= |r.value| <= 3
  {
    if timeframe == "1m" then Some(["5m", "15m", "1h"])
    else if timeframe == "5m" then Some(["15m", "1h", "4h"])
    else if timeframe == "15m" then Some(["1h", "4h", "1d"])
    else if timeframe == "1h" then Some(["4h", "1d", "1wk"])
    else if timeframe == "4h" then Some(["1d", "1wk", "1mo"])
    else if timeframe == "1d" then Some(["1wk", "1mo"])
    else None
  }

  /** The first two higher timeframes, or none. */
  function SelectedHtfs(timeframe: string): (r: seq<string>)
    ensures |r| <= 2
    ensures HtfMapping(timeframe).None? ==> r == []
    ensures HtfMapping(timeframe).Some? ==> r == HtfMapping(timeframe).value[..2]
  {
    match HtfMapping(timeframe)
    case None => []
    case Some(m) => m[..2]
  }

  /** Weekly and monthly data needs a longer period: 1d/5d become 1y,
      1mo/3mo become 2y; anything else is kept. */
  function HtfPeriod(htf: string, period: string): (r: string)
    ensures htf !in ["1wk", "1mo"] ==> r == period
    ensures htf in ["1wk", "1mo"] && period in ["1d", "5d"] ==> r == "1y"
    ensures htf in ["1wk", "1mo"] && period in ["1mo", "3mo"] ==> r == "2y"
    ensures period !in ["1d", "5d", "1mo", "3mo"] ==> r == period
  {
    if htf in ["1wk", "1mo"] then
      if period in ["1d", "5d"] then "1y"
      else if period in ["1mo", "3mo"] then "2y"
      else period
    else period
  }

  /** The data source returns positive prices for each higher timeframe. */
  ghost predicate PricedHtfFeed(fetch: Breakouts.Fetcher, symbol: string, period: string, htfs: seq<string>) {
    forall htf :: htf in htfs ==>
      var d := fetch(symbol, HtfPeriod(htf, period), htf);
      d.Some? ==> Priced(d.value)
  }

  function Tag(zs: seq<Zone>, htf: string): (r: seq<Zone>)
    ensures |r| == |zs|
    ensures forall i :: 0 <= i < |zs| ==> r[i] == zs[i].(htfTimeframe := Some(htf))
  {
    seq(|zs|, i requires 0 <= i < |zs| => zs[i].(htfTimeframe := Some(htf)))
  }

  /** The zones one higher timeframe contributes: the top three of its own
      detection, without confluence. */
  function ZonesOn(fetch: Breakouts.Fetcher, symbol: string, period: string, htf: string): (r: seq<Zone>)
    requires var d := fetch(symbol, HtfPeriod(htf, period), htf); d.Some? ==> Priced(d.value)
    ensures |r| <= 3
    ensures forall z :: z in r ==> z.htfTimeframe == Some(htf)
    ensures var d := fetch(symbol, HtfPeriod(htf, period), htf);
            d.None? || d.value == [] ==> r == []
    ensures var d := fetch(symbol, HtfPeriod(htf, period), htf);
            d.Some? && d.value != [] ==>
              var found := DetectZones(d.value, htf, []);
              && |r| == (if |found| < 3 then |found| else 3)
              && forall i :: 0 <= i < |r| ==> r[i] == found[i].(htfTimeframe := Some(htf))
  {
    var d := fetch(symbol, HtfPeriod(htf, period), htf);
    if d.Some? && |d.value| > 0 then
      DetectedUntagged(d.value, htf);
      TopTagged(DetectZones(d.value, htf, []), htf)
    else []
  }

  /** Each zone a higher timeframe contributes is, untagged, one that
      timeframe's detection reported. */
  lemma ZonesOnSound(fetch: Breakouts.Fetcher, symbol: string, period: string, htf: string)
    requires var d := fetch(symbol, HtfPeriod(htf, period), htf); d.Some? ==> Priced(d.value)
    ensures forall z :: z in ZonesOn(fetch, symbol, period, htf) ==>
              var d := fetch(symbol, HtfPeriod(htf, period), htf);
              d.Some? && z.(htfTimeframe := None) in DetectZones(d.value, htf, [])
  {
    var d := fetch(symbol, HtfPeriod(htf, period), htf);
    var r := ZonesOn(fetch, symbol, period, htf);
    if d.Some? && d.value != [] {
      DetectedUntagged(d.value, htf);
      UntagPrefix(DetectZones(d.value, htf, []), r, htf);
    }
  }

  /** Untagging a tagged prefix of untagged zones gives back zones of the
      original sequence. */
  lemma UntagPrefix(found: seq<Zone>, r: seq<Zone>, htf: string)
    requires forall i :: 0 <= i < |found| ==> found[i].htfTimeframe == None
    requires |r| <= |found|
    requires forall i :: 0 <= i < |r| ==> r[i] == found[i].(htfTimeframe := Some(htf))
    ensures forall z :: z in r ==> z.(htfTimeframe := None) in found
  {
    forall z | z in r ensures z.(htfTimeframe := None) in found {
      var i :| 0 <= i < |r| && r[i] == z;
      assert z.(htfTimeframe := None) == found[i];
    }
  }

  /** The first three zones, tagged with the timeframe they came from. */
  function TopTagged(found: seq<Zone>, htf: string): (r: seq<Zone>)
    ensures |r| == if |found| < 3 then |found| else 3
    ensures forall i :: 0 <= i < |r| ==> r[i] == found[i].(htfTimeframe := Some(htf))
    ensures forall z :: z in r ==> z.htfTimeframe == Some(htf)
    ensures (forall i :: 0 <= i < |found| ==> found[i].htfTimeframe == None) ==>
              forall z :: z in r ==> z.(htfTimeframe := None) in found
  {
    var top := if |found| <= 3 then found else found[..3];
    var r := Tag(top, htf);
    assert forall i :: 0 <= i < |top| ==> top[i] == found[i];
    r
  }

  /** Zones detected without higher-timeframe input carry no timeframe tag. */
  lemma DetectedUntagged(s: seq<Candle>, timeframe: string)
    requires Priced(s)
    ensures forall i :: 0 <= i < |DetectZones(s, timeframe, [])| ==>
              DetectZones(s, timeframe, [])[i].htfTimeframe == None
  {
    var r := DetectZones(s, timeframe, []);
    DetectZonesReported(s, timeframe, []);
    forall i | 0 <= i < |r| ensures r[i].htfTimeframe == None {
      assert r[i] in r;
    }
  }

  function ZonesOnAll(fetch: Breakouts.Fetcher, symbol: string, period: string, htfs: seq<string>): (r: seq<Zone>)
    requires PricedHtfFeed(fetch, symbol, period, htfs)
    ensures |r| <= 3 * |htfs|
    ensures forall z :: z in r ==> z.htfTimeframe.Some? && z.htfTimeframe.value in htfs
    ensures forall z :: z in r ==>
              var d := fetch(symbol, HtfPeriod(z.htfTimeframe.value, period), z.htfTimeframe.value);
              d.Some? && z.(htfTimeframe := None) in DetectZones(d.value, z.htfTimeframe.value, [])
  {
    if htfs == [] then []
    else
      assert forall h :: h in htfs[1..] ==> h in htfs;
      var here := ZonesOn(fetch, symbol, period, htfs[0]);
      ZonesOnSound(fetch, symbol, period, htfs[0]);
      var rest := ZonesOnAll(fetch, symbol, period, htfs[1..]);
      assert forall z :: z in here + rest ==> z in here || z in rest;
      here + rest
  }

  /** Zones from the higher timeframes of the chart's timeframe: at most
      three from each of at most two timeframes, each tagged with its
      timeframe and drawn from that timeframe's own detection. */
  function HtfZones(fetch: Breakouts.Fetcher, symbol: string, timeframe: string, period: string): (r: seq<Zone>)
    requires PricedHtfFeed(fetch, symbol, period, SelectedHtfs(timeframe))
    ensures HtfMapping(timeframe).None? ==> r == []
    ensures HtfMapping(timeframe).Some? ==>
              && |SelectedHtfs(timeframe)| == 2
              && r == ZonesOn(fetch, symbol, period, SelectedHtfs(timeframe)[0]) +
                      ZonesOn(fetch, symbol, period, SelectedHtfs(timeframe)[1])
    ensures |r| <= 6
    ensures forall z :: z in r ==> z.htfTimeframe.Some? && z.htfTimeframe.value in SelectedHtfs(timeframe)
    ensures forall z :: z in r ==>
              var d := fetch(symbol, HtfPeriod(z.htfTimeframe.value, period), z.htfTimeframe.value);
              d.Some? && z.(htfTimeframe := None) in DetectZones(d.value, z.htfTimeframe.value, [])
  {
    var htfs := SelectedHtfs(timeframe);
    if htfs == [] then []
    else
      ZonesOnAllTwo(fetch, symbol, period, htfs);
      ZonesOnAll(fetch, symbol, period, htfs)
  }

  /** Over two timeframes the collection is the first one's zones followed
      by the second one's. */
  lemma ZonesOnAllTwo(fetch: Breakouts.Fetcher, symbol: string, period: string, htfs: seq<string>)
    requires PricedHtfFeed(fetch, symbol, period, htfs) && |htfs| == 2
    ensures ZonesOnAll(fetch, symbol, period, htfs) ==
              ZonesOn(fetch, symbol, period, htfs[0]) + ZonesOn(fetch, symbol, period, htfs[1])
  {
    var second := ZonesOn(fetch, symbol, period, htfs[1]);
    assert htfs[1..][1..] == [];
    assert ZonesOnAll(fetch, symbol, period, htfs[1..]) == second + [];
    assert second + [] == second;
  }

  /** A daily chart consults only weekly and monthly data, over a longer
      period when the chart's period is short. */
  lemma DailyChartHtfs(period: string)
    ensures SelectedHtfs("1d") == ["1wk", "1mo"]
    ensures period in ["1d", "5d"] ==> HtfPeriod("1wk", period) == "1y" && HtfPeriod("1mo", period) == "1y"
  {
  }
}
