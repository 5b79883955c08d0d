/** Pivot scanning: local extremes of the highs (or lows) over a symmetric
    window whose size adapts to the timeframe and the series length. */
module Pivots {
  import opened Candles

  datatype Pivot = Pivot(index: nat, price: real)

  /** The per-timeframe base window; timeframes not listed use 3. */
  function BaseWindow(timeframe: string): (b: nat)
    ensures 2 <= b <= 5
  {
    if timeframe == "1m" || timeframe == "5m" then 2
    else if timeframe == "15m" || timeframe == "1h" then 3
    else if timeframe == "4h" then 4
    else if timeframe == "1d" then 5
    else if timeframe == "1wk" then 3
    else if timeframe == "1mo" then 2
    else 3
  }

  /** Short series shrink the window by one (never below 1), long series
      widen it by one (never above 6). */
  function WindowSize(timeframe: string, length: nat): (w: nat)
    ensures 1 <= w <= 6
    ensures BaseWindow(timeframe) - 1 <= w <= BaseWindow(timeframe) + 1
    ensures length < 30 ==> w == MaxNat(1, BaseWindow(timeframe) - 1)
    ensures 30 <= length < 100 ==> w == BaseWindow(timeframe)
    ensures 100 <= length ==> w == MinNat(BaseWindow(timeframe) + 1, 6)
  {
    var base := BaseWindow(timeframe);
    if length < 30 then MaxNat(1, base - 1)
    else if length < 100 then base
    else MinNat(base + 1, 6)
  }

  function MaxNat(a: int, b: int): int { if a >= b then a else b }
  function MinNat(a: int, b: int): int { if a <= b then a else b }

  /** A longer series never gets a narrower window. */
  lemma WindowMonotone(timeframe: string, n1: nat, n2: nat)
    requires n1 <= n2
    ensures WindowSize(timeframe, n1) <= WindowSize(timeframe, n2)
  {
  }

  /** An unlisted timeframe behaves exactly like base 3 ("15m"). */
  lemma UnlistedTimeframe(timeframe: string, length: nat)
    requires timeframe !in {"1m", "5m", "15m", "1h", "4h", "1d", "1wk", "1mo"}
    ensures WindowSize(timeframe, length) == WindowSize("15m", length)
    ensures length < 30 ==> WindowSize(timeframe, length) == 2
    ensures 30 <= length < 100 ==> WindowSize(timeframe, length) == 3
    ensures 100 <= length ==> WindowSize(timeframe, length) == 4
  {
  }

  /** `a` beats `b` in the direction of the scan: higher for highs, lower
      for lows. */
  predicate Beats(a: real, b: real, top: bool) {
    if top then a > b else a < b
  }

  /** `xs[i]` strictly beats every other value within `w` positions, and
      has `w` values on each side. */
  ghost predicate IsExtreme(xs: seq<real>, w: nat, i: int, top: bool) {
    && w <= i < |xs| - w
    && forall j :: i - w <= j <= i + w && j != i ==> Beats(xs[i], xs[j], top)
  }

  /** The inner scan over `j` in `[lo, hi)`: no other value reaches `xs[i]`. */
  function BeatsAll(xs: seq<real>, i: nat, lo: int, hi: int, top: bool): (b: bool)
    requires i < |xs| && 0 <= lo && hi <= |xs|
    decreases hi - lo
    ensures b <==> forall j :: lo <= j < hi && j != i ==> Beats(xs[i], xs[j], top)
  {
    if lo >= hi then true
    else if lo != i && !Beats(xs[i], xs[lo], top) then false
    else BeatsAll(xs, i, lo + 1, hi, top)
  }

  /** The outer scan over `i` in `[from, |xs| - w)`. */
  function ScanFrom(xs: seq<real>, w: nat, from: nat, top: bool): (r: seq<Pivot>)
    requires w <= from
    decreases |xs| - from
    ensures forall k :: 0 <= k < |r| ==>
              from <= r[k].index && IsExtreme(xs, w, r[k].index, top) && r[k].price == xs[r[k].index]
    ensures Ascending(r)
    ensures forall i :: from <= i && IsExtreme(xs, w, i, top) ==>
              exists k :: 0 <= k < |r| && r[k].index == i
  {
    if from >= |xs| - w then []
    else
      var rest := ScanFrom(xs, w, from + 1, top);
      var here := BeatsAll(xs, from, from - w, from + w + 1, top);
      ScanStepComplete(xs, w, from, top, rest, here);
      AscendingCons(Pivot(from, xs[from]), rest);
      if here then [Pivot(from, xs[from])] + rest else rest
  }

  /** Pivot indices strictly increase along the sequence. */
  predicate Ascending(ps: seq<Pivot>) {
    forall k, l :: 0 <= k < l < |ps| ==> ps[k].index < ps[l].index
  }

  lemma AscendingCons(p: Pivot, ps: seq<Pivot>)
    requires Ascending(ps)
    requires forall k :: 0 <= k < |ps| ==> p.index < ps[k].index
    ensures Ascending([p] + ps)
  {
  }

  /** One step of the outer scan keeps every extreme from `from` on. */
  lemma ScanStepComplete(xs: seq<real>, w: nat, from: nat, top: bool, rest: seq<Pivot>, here: bool)
    requires here <==> IsExtreme(xs, w, from, top)
    requires forall i :: from + 1 <= i && IsExtreme(xs, w, i, top) ==>
               exists k :: 0 <= k < |rest| && rest[k].index == i
    ensures var r := if here then [Pivot(from, xs[from])] + rest else rest;
            forall i :: from <= i && IsExtreme(xs, w, i, top) ==>
              exists k :: 0 <= k < |r| && r[k].index == i
  {
    var r := if here then [Pivot(from, xs[from])] + rest else rest;
    forall i | from <= i && IsExtreme(xs, w, i, top)
      ensures exists k :: 0 <= k < |r| && r[k].index == i
    {
      if i == from {
        assert r[0].index == i;
      } else {
        var k :| 0 <= k < |rest| && rest[k].index == i;
        assert r[if here then k + 1 else k].index == i;
      }
    }
  }

  function Scan(xs: seq<real>, w: nat, top: bool): (r: seq<Pivot>)
    ensures forall k :: 0 <= k < |r| ==>
              IsExtreme(xs, w, r[k].index, top) && r[k].price == xs[r[k].index]
    ensures Ascending(r)
    ensures forall i :: IsExtreme(xs, w, i, top) ==> exists k :: 0 <= k < |r| && r[k].index == i
  {
    ScanFrom(xs, w, w, top)
  }

  /** Candle `i` is a pivot high: at least `w` candles on each side, and its
      high strictly above every other high within `w` positions. */
  ghost predicate IsPivotHigh(s: seq<Candle>, w: nat, i: int) {
    && w <= i < |s| - w
    && forall j :: i - w <= j <= i + w && j != i ==> s[j].high < s[i].high
  }

  ghost predicate IsPivotLow(s: seq<Candle>, w: nat, i: int) {
    && w <= i < |s| - w
    && forall j :: i - w <= j <= i + w && j != i ==> s[j].low > s[i].low
  }

  function PivotHighs(s: seq<Candle>, w: nat): (r: seq<Pivot>)
    ensures forall k :: 0 <= k < |r| ==>
              IsPivotHigh(s, w, r[k].index) && r[k].price == s[r[k].index].high
    ensures Ascending(r)
    ensures forall i :: IsPivotHigh(s, w, i) ==> exists k :: 0 <= k < |r| && r[k].index == i
  {
    var hs := Highs(s);
    var r := Scan(hs, w, true);
    assert forall i :: IsPivotHigh(s, w, i) <==> IsExtreme(hs, w, i, true);
    r
  }

  function PivotLows(s: seq<Candle>, w: nat): (r: seq<Pivot>)
    ensures forall k :: 0 <= k < |r| ==>
              IsPivotLow(s, w, r[k].index) && r[k].price == s[r[k].index].low
    ensures Ascending(r)
    ensures forall i :: IsPivotLow(s, w, i) ==> exists k :: 0 <= k < |r| && r[k].index == i
  {
    var ls := Lows(s);
    var r := Scan(ls, w, false);
    assert forall i :: IsPivotLow(s, w, i) <==> IsExtreme(ls, w, i, false);
    r
  }
}
