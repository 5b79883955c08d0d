/** The data manager's pure parts: repairing downloaded rows into candles,
    the five-minute cache, the market-hours check and the multi-symbol
    fetch. Downloads are a function parameter. */
module DataManager {
  import opened Candles
  import opened Ranking

  /** A downloaded row: any of the four prices may be missing. */
  datatype RawRow = RawRow(
    timestamp: Micros,
    open: Option<real>,
    high: Option<real>,
    low: Option<real>,
    close: Option<real>,
    volume: real)

  predicate Complete(row: RawRow) {
    row.open.Some? && row.high.Some? && row.low.Some? && row.close.Some?
  }

  /** The high raised to the largest price and the low lowered to the
      smallest one (the low is computed against the already raised high),
      volume made non-negative. */
  function Repair(row: RawRow): (c: Candle)
    requires Complete(row)
    ensures c.high >= c.open && c.high >= c.close && c.high >= c.low && c.high >= row.high.value
    ensures c.low <= c.open && c.low <= c.close && c.low <= row.low.value
    ensures c.high == row.high.value || c.high == row.open.value || c.high == row.close.value || c.high == row.low.value
    ensures c.low == row.low.value || c.low == row.open.value || c.low == row.close.value
    ensures c.open == row.open.value && c.close == row.close.value
    ensures c.volume >= 0.0 && (c.volume == row.volume || c.volume == -row.volume)
    ensures c.timestamp == row.timestamp
  {
    var o := row.open.value;
    var c := row.close.value;
    var high := MaxOf(MaxOf(row.high.value, o), MaxOf(c, row.low.value));
    var low := MinOf(MinOf(row.low.value, o), MinOf(c, high));
    Candle(row.timestamp, o, high, low, c, Abs(row.volume))
  }

  /** A row survives cleaning when its prices are all present and its
      repaired high and low differ. */
  predicate Kept(row: RawRow) {
    Complete(row) && Repair(row).high != Repair(row).low
  }

  /** A valid candle: high above low and bracketing open and close, volume
      non-negative. */
  predicate Valid(c: Candle) {
    c.high > c.low && c.low <= c.open <= c.high && c.low <= c.close <= c.high && c.volume >= 0.0
  }

  /** The surviving rows, repaired, in their original order. */
  function Repaired(rows: seq<RawRow>): (r: seq<Candle>)
    ensures |r| <= |rows|
    ensures forall c :: c in r ==> Valid(c)
    ensures forall c :: c in r ==> exists k :: 0 <= k < |rows| && Kept(rows[k]) && c == Repair(rows[k])
    ensures forall k :: 0 <= k < |rows| && Kept(rows[k]) ==> Repair(rows[k]) in r
  {
    if rows == [] then []
    else
      var rest := Repaired(rows[1..]);
      assert forall k :: 1 <= k < |rows| ==> rows[k] == rows[1..][k - 1];
      if Kept(rows[0]) then [Repair(rows[0])] + rest else rest
  }

  predicate Earlier(a: Candle, b: Candle) {
    a.timestamp < b.timestamp
  }

  lemma EarlierIsStrictWeakOrder()
    ensures StrictWeakOrder(Earlier)
  {
  }

  /** `_clean_data`: drop incomplete and flat rows, repair the rest, sort by
      time. */
  function Clean(rows: seq<RawRow>): (r: seq<Candle>)
    ensures |r| <= |rows|
    ensures multiset(r) == multiset(Repaired(rows))
    ensures forall i :: 0 <= i < |r| ==> Valid(r[i])
    ensures forall i, j :: 0 <= i < j < |r| ==> r[i].timestamp <= r[j].timestamp
    ensures forall k :: 0 <= k < |rows| && Kept(rows[k]) ==> Repair(rows[k]) in r
    ensures forall c :: c in r ==> exists k :: 0 <= k < |rows| && Kept(rows[k]) && c == Repair(rows[k])
  {
    var kept := Repaired(rows);
    EarlierIsStrictWeakOrder();
    SortRanked(kept, Earlier);
    var r := Sort(kept, Earlier);
    SameElements(r, kept);
    r
  }

  lemma SameElements(a: seq<Candle>, b: seq<Candle>)
    requires multiset(a) == multiset(b)
    ensures forall c :: c in a <==> c in b
  {
    forall c ensures c in a <==> c in b {
      assert c in a <==> c in multiset(a);
      assert c in b <==> c in multiset(b);
    }
  }

  /** Rows with the same timestamp keep their download order. */
  lemma CleanIsStable(rows: seq<RawRow>, c: Candle)
    ensures TiedWith(Clean(rows), c, Earlier) == TiedWith(Repaired(rows), c, Earlier)
  {
    EarlierIsStrictWeakOrder();
    SortStable(Repaired(rows), c, Earlier);
  }

  /** A row whose prices are all present but equal is dropped. */
  lemma FlatRowDropped(rows: seq<RawRow>, k: nat)
    requires k < |rows| && Complete(rows[k])
    requires var p := rows[k].open.value;
             rows[k].high.value == p && rows[k].low.value == p && rows[k].close.value == p
    ensures !Kept(rows[k])
  {
  }

  /** Cache entries live five minutes. */
  const CacheDuration: Micros := 300 * 1_000_000

  datatype CacheEntry = CacheEntry(data: seq<Candle>, stored: Micros)

  type Cache = map<string, CacheEntry>

  function CacheKey(symbol: string, period: string, interval: string): string {
    symbol + "_" + period + "_" + interval
  }

  /** An entry is valid when it exists and is younger than five minutes. */
  predicate CacheValid(cache: Cache, key: string, now: Micros)
  {
    key in cache && now - cache[key].stored < CacheDuration
  }

  /** Validity expires: an entry valid at `t2` was valid at every time
      between its storing and `t2`, and an entry seen invalid stays so. */
  lemma CacheExpiry(cache: Cache, key: string, t1: Micros, t2: Micros)
    requires t1 <= t2
    ensures CacheValid(cache, key, t2) ==> CacheValid(cache, key, t1)
    ensures key in cache && t1 >= cache[key].stored + CacheDuration ==> !CacheValid(cache, key, t2)
  {
  }

  /** A download: rows for a symbol, period and interval, or nothing. */
  type Download = (string, string, string) -> Option<seq<RawRow>>

  /** `get_stock_data`: serve a valid cache entry, otherwise download,
      clean and store with the current time. */
  function GetStockData(cache: Cache, download: Download, symbol: string, period: string, interval: string,
                        now: Micros): (r: (Option<seq<Candle>>, Cache))
    ensures var key := CacheKey(symbol, period, interval);
            CacheValid(cache, key, now) ==> r == (Some(cache[key].data), cache)
    ensures var key := CacheKey(symbol, period, interval);
            !CacheValid(cache, key, now) && r.0.Some? ==>
              && r.1 == cache[key := CacheEntry(r.0.value, now)]
              && download(symbol, period, interval).Some?
              && r.0.value == Clean(download(symbol, period, interval).value)
    ensures var key := CacheKey(symbol, period, interval);
            !CacheValid(cache, key, now) && r.0.None? ==>
              r.1 == cache && (download(symbol, period, interval).None? || download(symbol, period, interval).value == [])
  {
    var key := CacheKey(symbol, period, interval);
    if CacheValid(cache, key, now) then (Some(cache[key].data), cache)
    else
      match download(symbol, period, interval)
      case None => (None, cache)
      case Some(rows) =>
        if rows == [] then (None, cache)
        else
          var data := Clean(rows);
          (Some(data), cache[key := CacheEntry(data, now)])
  }

  /** Data just downloaded is served from the cache for the next five
      minutes: the same data, whatever the download would then return. */
  lemma RepeatServedFromCache(cache: Cache, download: Download, later: Download,
                              symbol: string, period: string, interval: string, t1: Micros, t2: Micros)
    requires t1 <= t2 < t1 + CacheDuration
    requires !CacheValid(cache, CacheKey(symbol, period, interval), t1)
    requires GetStockData(cache, download, symbol, period, interval, t1).0.Some?
    ensures var (d1, c1) := GetStockData(cache, download, symbol, period, interval, t1);
            GetStockData(c1, later, symbol, period, interval, t2) == (d1, c1)
  {
    var key := CacheKey(symbol, period, interval);
    var (d1, c1) := GetStockData(cache, download, symbol, period, interval, t1);
    assert c1[key].stored == t1;
  }

  /** The US session: weekdays (0 = Monday) from 9:30 to 16:00, both ends
      included; in clock terms open from 9:30, every minute of hours 10 to
      15, and at 16:00 exactly. */
  function MarketOpen(weekday: nat, hour: nat, minute: nat): (b: bool)
    requires minute < 60
    ensures b <==>
              && weekday < 5
              && ((hour == 9 && minute >= 30) || 10 <= hour <= 15 || (hour == 16 && minute == 0))
  {
    if weekday >= 5 then false
    else
      var minutes := hour * 60 + minute;
      9 * 60 + 30 <= minutes <= 16 * 60
  }

  /** `get_multiple_stocks_data`: the symbols whose fetch succeeded, each
      with its data. */
  function GetMultiple(fetch: (string, string, string) -> Option<seq<Candle>>, symbols: seq<string>,
                       period: string, interval: string): (r: map<string, seq<Candle>>)
    ensures forall sym :: sym in r <==> sym in symbols && fetch(sym, period, interval).Some?
    ensures forall sym :: sym in r ==> r[sym] == fetch(sym, period, interval).value
  {
    if symbols == [] then map[]
    else
      var rest := GetMultiple(fetch, symbols[..|symbols| - 1], period, interval);
      var sym := symbols[|symbols| - 1];
      assert forall x :: x in symbols <==> x in symbols[..|symbols| - 1] || x == sym;
      match fetch(sym, period, interval)
      case None => rest
      case Some(d) => rest[sym := d]
  }
}
