/** The candle series shared by both engines, and the few aggregates over
    sequences of reals (max, min, sum, mean, rolling windows) they are built
    from. A pandas rolling value whose window is not yet full is `None`. */
module Candles {

  datatype Option<+T> = None | Some(value: T)

  /** Time is counted in microseconds since `datetime.min`. */
  type Micros = int

  datatype Candle = Candle(
    timestamp: Micros,
    open: real,
    high: real,
    low: real,
    close: real,
    volume: real)

  /** Prices the engines divide by are positive and volume is non-negative. */
  predicate PricedCandle(c: Candle) {
    c.open > 0.0 && c.high > 0.0 && c.low > 0.0 && c.close > 0.0 && c.volume >= 0.0
  }

  predicate Priced(s: seq<Candle>) {
    forall i :: 0 <= i < |s| ==> PricedCandle(s[i])
  }

  function Abs(x: real): (r: real)
    ensures r >= 0.0 && (r == x || r == -x)
  {
    if x < 0.0 then -x else x
  }

  function MinOf(a: real, b: real): (r: real)
    ensures r <= a && r <= b && (r == a || r == b)
  {
    if a <= b then a else b
  }

  function MaxOf(a: real, b: real): (r: real)
    ensures r >= a && r >= b && (r == a || r == b)
  {
    if a >= b then a else b
  }

  /** Percentage change from `base` to `x`. */
  function Pct(base: real, x: real): real
    requires base > 0.0
  {
    (x - base) / base * 100.0
  }

  /** Percentage fall from `base` to `x`. */
  function DropPct(base: real, x: real): real
    requires base > 0.0
  {
    (base - x) / base * 100.0
  }

  /** A higher price is a larger change and a smaller fall. */
  lemma PctMonotone(base: real, x: real, y: real)
    requires base > 0.0 && x <= y
    ensures Pct(base, x) <= Pct(base, y)
    ensures DropPct(base, y) <= DropPct(base, x)
  {
  }

  /** Largest element: it occurs in the sequence and bounds every element. */
  function Max(xs: seq<real>): (m: real)
    requires |xs| > 0
    ensures m in xs
    ensures forall i :: 0 <= i < |xs| ==> xs[i] <= m
  {
    if |xs| == 1 then xs[0] else MaxOf(xs[0], Max(xs[1..]))
  }

  /** Smallest element: it occurs in the sequence and is below every element. */
  function Min(xs: seq<real>): (m: real)
    requires |xs| > 0
    ensures m in xs
    ensures forall i :: 0 <= i < |xs| ==> m <= xs[i]
  {
    if |xs| == 1 then xs[0] else MinOf(xs[0], Min(xs[1..]))
  }

  function Sum(xs: seq<real>): (r: real)
    ensures (forall i :: 0 <= i < |xs| ==> xs[i] >= 0.0) ==> r >= 0.0
    ensures (forall i :: 0 <= i < |xs| ==> xs[i] > 0.0) && |xs| > 0 ==> r > 0.0
  {
    if |xs| == 0 then 0.0 else xs[0] + Sum(xs[1..])
  }

  /** A sum of non-negative terms is at least each of its terms. */
  lemma {:induction false} SumAtLeastElement(xs: seq<real>, i: nat)
    requires i < |xs|
    requires forall k :: 0 <= k < |xs| ==> xs[k] >= 0.0
    ensures xs[i] <= Sum(xs)
  {
    if i > 0 {
      SumAtLeastElement(xs[1..], i - 1);
    }
  }

  function Mean(xs: seq<real>): (r: real)
    requires |xs| > 0
    ensures (forall i :: 0 <= i < |xs| ==> xs[i] >= 0.0) ==> r >= 0.0
    ensures (forall i :: 0 <= i < |xs| ==> xs[i] > 0.0) ==> r > 0.0
  {
    Sum(xs) / (|xs| as real)
  }

  function Highs(s: seq<Candle>): (r: seq<real>)
    ensures |r| == |s| && forall i :: 0 <= i < |s| ==> r[i] == s[i].high
  {
    seq(|s|, i requires 0 <= i < |s| => s[i].high)
  }

  function Lows(s: seq<Candle>): (r: seq<real>)
    ensures |r| == |s| && forall i :: 0 <= i < |s| ==> r[i] == s[i].low
  {
    seq(|s|, i requires 0 <= i < |s| => s[i].low)
  }

  function Closes(s: seq<Candle>): (r: seq<real>)
    ensures |r| == |s| && forall i :: 0 <= i < |s| ==> r[i] == s[i].close
  {
    seq(|s|, i requires 0 <= i < |s| => s[i].close)
  }

  function Volumes(s: seq<Candle>): (r: seq<real>)
    ensures |r| == |s| && forall i :: 0 <= i < |s| ==> r[i] == s[i].volume
  {
    seq(|s|, i requires 0 <= i < |s| => s[i].volume)
  }

  /** The pandas window of width `w` ending at position `p`: defined only
      when `w` values are available up to and including `p`. */
  function Window(xs: seq<real>, w: nat, p: int): (r: Option<seq<real>>)
    requires w > 0
    ensures r.Some? <==> w - 1 <= p < |xs|
    ensures r.Some? ==> |r.value| == w
    ensures r.Some? ==> forall k :: 0 <= k < w ==> r.value[k] == xs[p + 1 - w + k]
  {
    if w - 1 <= p < |xs| then Some(xs[p + 1 - w .. p + 1]) else None
  }

  function RollingMax(xs: seq<real>, w: nat, p: int): (r: Option<real>)
    requires w > 0
    ensures r.Some? <==> w - 1 <= p < |xs|
    ensures r.Some? ==> forall k :: p + 1 - w <= k <= p ==> xs[k] <= r.value
    ensures r.Some? ==> exists k :: p + 1 - w <= k <= p && xs[k] == r.value
    ensures r.Some? && (forall k :: 0 <= k < |xs| ==> xs[k] > 0.0) ==> r.value > 0.0
  {
    match Window(xs, w, p)
    case None => None
    case Some(ys) =>
      var m := Max(ys);
      assert forall k :: p + 1 - w <= k <= p ==> xs[k] == ys[k - (p + 1 - w)];
      Some(m)
  }

  function RollingMin(xs: seq<real>, w: nat, p: int): (r: Option<real>)
    requires w > 0
    ensures r.Some? <==> w - 1 <= p < |xs|
    ensures r.Some? ==> forall k :: p + 1 - w <= k <= p ==> r.value <= xs[k]
    ensures r.Some? ==> exists k :: p + 1 - w <= k <= p && xs[k] == r.value
    ensures r.Some? && (forall k :: 0 <= k < |xs| ==> xs[k] > 0.0) ==> r.value > 0.0
  {
    match Window(xs, w, p)
    case None => None
    case Some(ys) =>
      var m := Min(ys);
      assert forall k :: p + 1 - w <= k <= p ==> xs[k] == ys[k - (p + 1 - w)];
      Some(m)
  }

  function RollingMean(xs: seq<real>, w: nat, p: int): (r: Option<real>)
    requires w > 0
    ensures r.Some? <==> w - 1 <= p < |xs|
    ensures r.Some? ==> r.value == Mean(xs[p + 1 - w .. p + 1])
    ensures r.Some? && (forall k :: 0 <= k < |xs| ==> xs[k] > 0.0) ==> r.value > 0.0
    ensures r.Some? && (forall k :: 0 <= k < |xs| ==> xs[k] >= 0.0) ==> r.value >= 0.0
  {
    match Window(xs, w, p)
    case None => None
    case Some(ys) => Some(Mean(ys))
  }

  /** A percentage rise of `x` over `base` reaches `p` exactly when `x` is
      at least `base` grown by `p` percent. */
  lemma RiseAtLeast(base: real, x: real, p: real)
    requires base > 0.0
    ensures (x - base) / base * 100.0 >= p <==> x >= base * (1.0 + p / 100.0)
  {
    var q := (x - base) / base;
    assert q * base == x - base;
    if q * 100.0 >= p {
      assert q >= p / 100.0;
      assert q * base >= (p / 100.0) * base;
    } else {
      assert q < p / 100.0;
      assert q * base < (p / 100.0) * base;
    }
  }

  /** A percentage fall of `x` below `base` reaches `p` exactly when `x` is
      at most `base` shrunk by `p` percent. */
  lemma FallAtLeast(base: real, x: real, p: real)
    requires base > 0.0
    ensures (base - x) / base * 100.0 >= p <==> x <= base * (1.0 - p / 100.0)
  {
    var q := (base - x) / base;
    assert q * base == base - x;
    if q * 100.0 >= p {
      assert q >= p / 100.0;
      assert q * base >= (p / 100.0) * base;
    } else {
      assert q < p / 100.0;
      assert q * base < (p / 100.0) * base;
    }
  }
}
