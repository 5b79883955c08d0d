/** Zones and the two passes that propose them: fresh zones built from
    pivots that price never revisited, and tested zones found by scanning
    every interior candle for levels retested once or twice. */
module Zones {
  import opened Candles
  import opened Pivots

  datatype ZoneKind = Demand | Supply
  datatype Strength = Weak | Medium | Strong
  datatype Quality = MediumQuality | HighQuality

  /** `confluence` is present only once higher-timeframe zones were given;
      `htfTimeframe` tags a zone taken from a higher timeframe. */
  datatype Zone = Zone(
    kind: ZoneKind,
    level: real,
    touches: nat,
    latestTouch: nat,
    pivotIndices: seq<nat>,
    strength: Strength,
    score: real,
    reaction: real,
    isFresh: bool,
    quality: Quality,
    confluence: Option<real>,
    htfTimeframe: Option<string>)

  /** A zone as the passes create it: strength "medium", not yet scored. */
  function NewZone(kind: ZoneKind, level: real, touches: nat, index: nat, reaction: real,
                   isFresh: bool, quality: Quality): Zone
  {
    Zone(kind, level, touches, index, [index], Medium, 0.0, reaction, isFresh, quality, None, None)
  }

  /** A zone straight out of a detection pass, before scoring. */
  predicate Unscored(z: Zone) {
    z.strength == Medium && z.score == 0.0 && z.confluence == None && z.htfTimeframe == None
  }

  /** The price a zone of this kind is anchored on: the low for demand, the
      high for supply. */
  function Anchor(c: Candle, kind: ZoneKind): real {
    if kind == Demand then c.low else c.high
  }

  /** Number of candles after `idx` the reaction is measured over. */
  function ReactionSpan(length: nat, idx: nat): int {
    MinNat(10, length - idx - 1)
  }

  /** Percentage move away from the anchor of candle `idx` over the next
      (up to) ten candles, floored at zero; zero when fewer than six
      candles remain from `idx` on. */
  function ReactionStrength(s: seq<Candle>, idx: nat, kind: ZoneKind): (r: real)
    requires Priced(s)
    ensures r >= 0.0
    ensures idx >= |s| - 5 ==> r == 0.0
  {
    if idx >= |s| - 5 then 0.0
    else
      var future := s[idx + 1 .. idx + 1 + ReactionSpan(|s|, idx)];
      if kind == Demand then
        var level := s[idx].low;
        MaxOf(0.0, Pct(level, Max(Highs(future))))
      else
        var level := s[idx].high;
        MaxOf(0.0, DropPct(level, Min(Lows(future))))
  }

  /** For demand, `ReactionStrength` is the largest percentage rise from the
      anchor to any high of the reaction window, floored at zero: it bounds
      every such rise and one of them attains it when it is positive. */
  lemma DemandReaction(s: seq<Candle>, idx: nat)
    requires Priced(s)
    requires idx < |s| - 5
    ensures 5 <= ReactionSpan(|s|, idx) <= 10
    ensures var r := ReactionStrength(s, idx, Demand);
            var n := ReactionSpan(|s|, idx);
            && (forall j :: idx < j <= idx + n ==> Pct(s[idx].low, s[j].high) <= r)
            && (r > 0.0 ==> exists j :: idx < j <= idx + n && Pct(s[idx].low, s[j].high) == r)
  {
    var n := ReactionSpan(|s|, idx);
    var highs := Highs(s[idx + 1 .. idx + 1 + n]);
    var m := Max(highs);
    forall j | idx < j <= idx + n
      ensures Pct(s[idx].low, s[j].high) <= ReactionStrength(s, idx, Demand)
    {
      assert highs[j - idx - 1] == s[j].high;
      PctMonotone(s[idx].low, s[j].high, m);
    }
    if ReactionStrength(s, idx, Demand) > 0.0 {
      var k :| 0 <= k < |highs| && highs[k] == m;
      assert s[idx + 1 + k].high == m;
    }
  }

  /** For supply, the mirror image: the largest percentage fall from the
      anchor to any low of the reaction window, floored at zero. */
  lemma SupplyReaction(s: seq<Candle>, idx: nat)
    requires Priced(s)
    requires idx < |s| - 5
    ensures 5 <= ReactionSpan(|s|, idx) <= 10
    ensures var r := ReactionStrength(s, idx, Supply);
            var n := ReactionSpan(|s|, idx);
            && (forall j :: idx < j <= idx + n ==> DropPct(s[idx].high, s[j].low) <= r)
            && (r > 0.0 ==> exists j :: idx < j <= idx + n && DropPct(s[idx].high, s[j].low) == r)
  {
    var n := ReactionSpan(|s|, idx);
    var lows := Lows(s[idx + 1 .. idx + 1 + n]);
    var m := Min(lows);
    forall j | idx < j <= idx + n
      ensures DropPct(s[idx].high, s[j].low) <= ReactionStrength(s, idx, Supply)
    {
      assert lows[j - idx - 1] == s[j].low;
      PctMonotone(s[idx].high, m, s[j].low);
    }
    if ReactionStrength(s, idx, Supply) > 0.0 {
      var k :| 0 <= k < |lows| && lows[k] == m;
      assert s[idx + 1 + k].low == m;
    }
  }

  /** Price never came back within 1% of `price` after candle `idx`: no later
      low at or below 1.01 times it (demand), no later high at or above 0.99
      times it (supply). */
  predicate IsFreshZone(s: seq<Candle>, idx: nat, price: real, kind: ZoneKind) {
    if kind == Demand then forall j :: idx < j < |s| ==> s[j].low > price * 1.01
    else forall j :: idx < j < |s| ==> s[j].high < price * 0.99
  }

  /** What every zone of the fresh pass satisfies. */
  ghost predicate FreshShape(s: seq<Candle>, z: Zone, kind: ZoneKind)
    requires Priced(s)
  {
    && z.kind == kind
    && z.touches == 1
    && z.isFresh
    && z.pivotIndices == [z.latestTouch]
    && z.latestTouch < |s| - 5
    && z.reaction == ReactionStrength(s, z.latestTouch, kind)
    && z.reaction >= 3.0
    && (z.quality == HighQuality <==> z.reaction >= 5.0)
    && IsFreshZone(s, z.latestTouch, z.level, kind)
  }

  /** The fresh pass over one kind of pivot, in pivot order: a pivot yields a
      zone iff price never revisited it and it reacted by at least 3%. */
  function FreshZones(s: seq<Candle>, pivots: seq<Pivot>, kind: ZoneKind): (r: seq<Zone>)
    requires Priced(s)
    ensures |r| <= |pivots|
    ensures forall z :: z in r ==>
              FreshShape(s, z, kind) && Unscored(z) &&
              exists p :: p in pivots && z.latestTouch == p.index && z.level == p.price
    ensures forall p :: (p in pivots && IsFreshZone(s, p.index, p.price, kind) &&
                         ReactionStrength(s, p.index, kind) >= 3.0) ==>
              exists z :: z in r && z.latestTouch == p.index && z.level == p.price
  {
    if pivots == [] then []
    else
      var p := pivots[0];
      var rest := FreshZones(s, pivots[1..], kind);
      assert forall q :: q in pivots ==> q == p || q in pivots[1..];
      if IsFreshZone(s, p.index, p.price, kind) then
        var reaction := ReactionStrength(s, p.index, kind);
        if reaction >= 3.0 then
          var quality := if reaction >= 5.0 then HighQuality else MediumQuality;
          [NewZone(kind, p.price, 1, p.index, reaction, true, quality)] + rest
        else rest
      else rest
  }

  /** Candle `j` retests the anchor of candle `i` within 2%. */
  predicate Near(s: seq<Candle>, i: nat, j: nat, kind: ZoneKind)
    requires Priced(s) && i < |s| && j < |s|
  {
    Abs(Anchor(s[j], kind) - Anchor(s[i], kind)) / Anchor(s[i], kind) <= 0.02
  }

  /** Retests of candle `i` among candles `[from, end)`. */
  function CountNear(s: seq<Candle>, i: nat, from: nat, end: nat, kind: ZoneKind): (n: nat)
    requires Priced(s) && i < |s| && end <= |s|
    decreases end - from
    ensures n <= end - from || (from >= end && n == 0)
  {
    if from >= end then 0
    else (if Near(s, i, from, kind) then 1 else 0) + CountNear(s, i, from + 1, end, kind)
  }

  /** Retests of candle `i` in the look-ahead `[i+1, min(i+20, |s|))`. */
  function TouchCount(s: seq<Candle>, i: nat, kind: ZoneKind): (n: nat)
    requires Priced(s) && i < |s|
  {
    CountNear(s, i, i + 1, MinNat(i + 20, |s|), kind)
  }

  /** The look-ahead holds 19 candles, not 20: at most 19 retests are
      counted, and the count depends only on the candles before `i + 20`. */
  lemma TouchLookAhead(s: seq<Candle>, i: nat, kind: ZoneKind)
    requires Priced(s) && i < |s|
    ensures TouchCount(s, i, kind) <= 19
    ensures TouchCount(s, i, kind) <= |s| - i - 1
    ensures TouchCount(s, i, kind) == TouchCount(s[..MinNat(i + 20, |s|)], i, kind)
  {
    var end := MinNat(i + 20, |s|);
    CountNearPrefix(s, s[..end], i, i + 1, end, kind);
  }

  lemma {:induction false} CountNearPrefix(s: seq<Candle>, t: seq<Candle>, i: nat, from: nat, end: nat, kind: ZoneKind)
    requires Priced(s) && Priced(t) && i < |t| <= |s| && end <= |t|
    requires forall k :: 0 <= k < |t| ==> t[k] == s[k]
    decreases end - from
    ensures CountNear(s, i, from, end, kind) == CountNear(t, i, from, end, kind)
  {
    if from < end {
      CountNearPrefix(s, t, i, from + 1, end, kind);
    }
  }

  /** What every zone of the tested pass satisfies. */
  ghost predicate TestedShape(s: seq<Candle>, z: Zone)
    requires Priced(s)
  {
    && 10 <= z.latestTouch < |s| - 10
    && z.level == Anchor(s[z.latestTouch], z.kind)
    && z.touches == TouchCount(s, z.latestTouch, z.kind) + 1
    && 2 <= z.touches <= 3
    && !z.isFresh
    && z.pivotIndices == [z.latestTouch]
    && z.reaction == ReactionStrength(s, z.latestTouch, z.kind)
    && z.reaction >= 4.0
    && (z.quality == HighQuality <==> z.reaction >= 6.0)
  }

  /** Candle `i` yields a tested zone of this kind. */
  ghost predicate TestedQualifies(s: seq<Candle>, i: nat, kind: ZoneKind)
    requires Priced(s) && i < |s|
  {
    1 <= TouchCount(s, i, kind) <= 2 && ReactionStrength(s, i, kind) >= 4.0
  }

  function TestedAt(s: seq<Candle>, i: nat, kind: ZoneKind): (r: seq<Zone>)
    requires Priced(s) && 10 <= i < |s| - 10
    ensures |r| <= 1
    ensures forall z :: z in r ==> TestedShape(s, z) && Unscored(z) && z.latestTouch == i && z.kind == kind
    ensures |r| == 1 <==> TestedQualifies(s, i, kind)
  {
    var touches := TouchCount(s, i, kind);
    if 1 <= touches <= 2 then
      var reaction := ReactionStrength(s, i, kind);
      if reaction >= 4.0 then
        var quality := if reaction >= 6.0 then HighQuality else MediumQuality;
        [NewZone(kind, Anchor(s[i], kind), touches + 1, i, reaction, false, quality)]
      else []
    else []
  }

  /** The tested pass from candle `i` on: for each candle, the demand zone
      (if any) and then the supply zone (if any). */
  function TestedFrom(s: seq<Candle>, i: nat): (r: seq<Zone>)
    requires Priced(s) && 10 <= i
    decreases |s| - i
    ensures forall z :: z in r ==> TestedShape(s, z) && Unscored(z) && i <= z.latestTouch
    ensures forall j, kind :: i <= j < |s| - 10 && TestedQualifies(s, j, kind) ==>
              exists z :: z in r && z.latestTouch == j && z.kind == kind
  {
    if i >= |s| - 10 then []
    else
      var rest := TestedFrom(s, i + 1);
      TestedStep(s, i, rest);
      TestedAt(s, i, Demand) + TestedAt(s, i, Supply) + rest
  }

  /** Candle `i`'s zones put in front of the zones from `i + 1` on give the
      zones from `i` on. */
  lemma TestedStep(s: seq<Candle>, i: nat, rest: seq<Zone>)
    requires Priced(s) && 10 <= i < |s| - 10
    requires forall z :: z in rest ==> TestedShape(s, z) && Unscored(z) && i + 1 <= z.latestTouch
    requires forall j, kind :: i + 1 <= j < |s| - 10 && TestedQualifies(s, j, kind) ==>
               exists z :: z in rest && z.latestTouch == j && z.kind == kind
    ensures var r := TestedAt(s, i, Demand) + TestedAt(s, i, Supply) + rest;
            && (forall z :: z in r ==> TestedShape(s, z) && Unscored(z) && i <= z.latestTouch)
            && (forall j, kind :: i <= j < |s| - 10 && TestedQualifies(s, j, kind) ==>
                  exists z :: z in r && z.latestTouch == j && z.kind == kind)
  {
    var here := TestedAt(s, i, Demand) + TestedAt(s, i, Supply);
    var r := here + rest;
    assert forall z :: z in r ==> z in here || z in rest;
    forall j, kind | i <= j < |s| - 10 && TestedQualifies(s, j, kind)
      ensures exists z :: z in r && z.latestTouch == j && z.kind == kind
    {
      if j == i {
        assert TestedAt(s, i, kind)[0] in r;
      } else {
        var z :| z in rest && z.latestTouch == j && z.kind == kind;
        assert z in r;
      }
    }
  }

  function TestedZones(s: seq<Candle>): (r: seq<Zone>)
    requires Priced(s)
    ensures forall z :: z in r ==> TestedShape(s, z) && Unscored(z)
    ensures forall j, kind :: 10 <= j < |s| - 10 && TestedQualifies(s, j, kind) ==>
              exists z :: z in r && z.latestTouch == j && z.kind == kind
  {
    TestedFrom(s, 10)
  }
}
