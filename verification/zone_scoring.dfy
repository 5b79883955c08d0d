/** Ranking, strength scoring and higher-timeframe confluence of the
    zones the detection passes proposed. */
module ZoneScoring {
  import opened Candles
  import opened Zones
  import opened Ranking

  /** Maximum number of zones kept after ranking. */
  const MaxZones: nat := 12

  /** The ranking order: high quality first, then larger reaction, then
      fresh before tested, then the SMALLER latest-touch index first (the
      sort key negates the index and the sort is reversed). */
  predicate Outranks(a: Zone, b: Zone) {
    var ha := a.quality == HighQuality;
    var hb := b.quality == HighQuality;
    if ha != hb then ha
    else if a.reaction != b.reaction then a.reaction > b.reaction
    else if a.isFresh != b.isFresh then a.isFresh
    else a.latestTouch < b.latestTouch
  }

  lemma OutranksIsStrictWeakOrder()
    ensures StrictWeakOrder(Outranks)
  {
  }

  /** Stable descending sort by the ranking order, keeping the first 12. */
  function RankZones(zs: seq<Zone>): (r: seq<Zone>)
    ensures |r| == if |zs| < MaxZones then |zs| else MaxZones
    ensures forall z :: z in r ==> z in zs
    ensures multiset(r) <= multiset(zs)
    ensures |zs| <= MaxZones ==> multiset(r) == multiset(zs)
    ensures Ranked(r, Outranks)
  {
    OutranksIsStrictWeakOrder();
    TopRanked(zs, Outranks, MaxZones);
    Top(zs, Outranks, MaxZones)
  }

  /** Every zone dropped by the cut is outranked by, or tied with, every
      zone kept; zones with equal ranking keys keep their input order. */
  lemma RankZonesKeepsBest(zs: seq<Zone>, k: Zone)
    ensures forall i, j :: 0 <= i < |RankZones(zs)| <= j < |zs| ==>
              !Outranks(Sort(zs, Outranks)[j], RankZones(zs)[i])
    ensures TiedWith(Sort(zs, Outranks), k, Outranks) == TiedWith(zs, k, Outranks)
  {
    OutranksIsStrictWeakOrder();
    TopRanked(zs, Outranks, MaxZones);
    SortStable(zs, k, Outranks);
  }

  /** Among zones equal in quality, reaction and freshness, the one touched
      EARLIER comes first. */
  lemma TieBreakFavoursOlder(zs: seq<Zone>, i: nat, j: nat)
    requires i < j < |RankZones(zs)|
    requires var r := RankZones(zs);
             r[i].quality == r[j].quality && r[i].reaction == r[j].reaction &&
             r[i].isFresh == r[j].isFresh
    ensures RankZones(zs)[i].latestTouch <= RankZones(zs)[j].latestTouch
  {
    var r := RankZones(zs);
    assert !Outranks(r[j], r[i]);
  }

  /** Classification of a strength score. */
  function Classify(score: real): (c: Strength)
    ensures c == Strong <==> score >= 70.0
    ensures c == Medium <==> 45.0 <= score < 70.0
    ensures c == Weak <==> score < 45.0
  {
    if score >= 70.0 then Strong
    else if score >= 45.0 then Medium
    else Weak
  }

  function StrengthRank(c: Strength): nat {
    match c
    case Weak => 0
    case Medium => 1
    case Strong => 2
  }

  /** A higher score never gets a weaker classification. */
  lemma ClassifyMonotone(a: real, b: real)
    requires a <= b
    ensures StrengthRank(Classify(a)) <= StrengthRank(Classify(b))
  {
  }

  /** The additive score: reaction (capped at 40), freshness, quality,
      confluence (times 10) and volume (capped at 15). */
  function EnhancedScore(z: Zone, volumeScore: real, confluence: real): real {
    MinOf(z.reaction * 5.0, 40.0)
      + (if z.isFresh then 20.0 else 0.0)
      + (if z.quality == HighQuality then 15.0 else 0.0)
      + confluence * 10.0
      + MinOf(volumeScore, 15.0)
  }

  lemma ScoreBounds(z: Zone, volumeScore: real, confluence: real)
    requires z.reaction >= 0.0
    requires 0.0 <= volumeScore && 0.0 <= confluence <= 1.0
    ensures 0.0 <= EnhancedScore(z, volumeScore, confluence) <= 100.0
  {
  }

  /** Raising the reaction with everything else fixed never lowers the score
      nor weakens the classification. */
  lemma ScoreMonotoneInReaction(z: Zone, reaction: real, volumeScore: real, confluence: real)
    requires z.reaction <= reaction
    ensures EnhancedScore(z, volumeScore, confluence)
              <= EnhancedScore(z.(reaction := reaction), volumeScore, confluence)
    ensures StrengthRank(Classify(EnhancedScore(z, volumeScore, confluence)))
              <= StrengthRank(Classify(EnhancedScore(z.(reaction := reaction), volumeScore, confluence)))
  {
    ClassifyMonotone(EnhancedScore(z, volumeScore, confluence),
                     EnhancedScore(z.(reaction := reaction), volumeScore, confluence));
  }

  /** A fresh high-quality zone with an 8% reaction and no confluence or
      volume scores 40 + 20 + 15 = 75 and is strong. */
  lemma ScoreExample(z: Zone)
    requires z.reaction == 8.0 && z.isFresh && z.quality == HighQuality
    ensures EnhancedScore(z, 0.0, 0.0) == 75.0
    ensures Classify(EnhancedScore(z, 0.0, 0.0)) == Strong
  {
  }

  /** `h` lies within 2% of the zone's level. */
  predicate NearHtf(z: Zone, h: Zone)
    requires z.level > 0.0
  {
    Abs(z.level - h.level) / z.level <= 0.02
  }

  /** How many zones of `htf` lie within 2% of `z` and have its kind
      (`same`) or the opposite kind (`!same`). */
  function NearCount(z: Zone, htf: seq<Zone>, same: bool): (n: nat)
    requires z.level > 0.0
    ensures n <= |htf|
    ensures n > 0 <==> exists h :: h in htf && NearHtf(z, h) && (h.kind == z.kind) == same
  {
    if htf == [] then 0
    else
      assert forall g :: g in htf ==> g == htf[0] || g in htf[1..];
      (if NearHtf(z, htf[0]) && (htf[0].kind == z.kind) == same then 1 else 0) + NearCount(z, htf[1..], same)
  }

  /** The uncapped accumulator: 1.0 per nearby zone of the same kind, 0.3
      per nearby zone of the opposite kind. */
  function ConfluenceSum(z: Zone, htf: seq<Zone>): (r: real)
    requires z.level > 0.0
    ensures r == NearCount(z, htf, true) as real + 0.3 * NearCount(z, htf, false) as real
    ensures r >= 0.0
    ensures r > 0.0 <==> exists h :: h in htf && NearHtf(z, h)
    ensures (exists h :: h in htf && NearHtf(z, h) && h.kind == z.kind) ==> r >= 1.0
  {
    if htf == [] then 0.0
    else
      var h := htf[0];
      assert forall g :: g in htf ==> g == h || g in htf[1..];
      var here := if NearHtf(z, h) then (if z.kind == h.kind then 1.0 else 0.3) else 0.0;
      here + ConfluenceSum(z, htf[1..])
  }

  /** Higher-timeframe confluence, capped at 1.0. */
  function Confluence(z: Zone, htf: seq<Zone>): (c: real)
    requires z.level > 0.0
    ensures 0.0 <= c <= 1.0
    ensures htf == [] ==> c == 0.0
    ensures c == MinOf(NearCount(z, htf, true) as real + 0.3 * NearCount(z, htf, false) as real, 1.0)
    ensures c > 0.0 <==> exists h :: h in htf && NearHtf(z, h)
    ensures (exists h :: h in htf && NearHtf(z, h) && h.kind == z.kind) ==> c == 1.0
  {
    if htf == [] then 0.0 else MinOf(ConfluenceSum(z, htf), 1.0)
  }

  /** Opposite-kind zones alone add 0.3 each until the cap: one gives 0.3,
      three give 0.9 and four already reach 1.0. */
  lemma OppositeConfluence(z: Zone, htf: seq<Zone>)
    requires z.level > 0.0
    requires forall h :: h in htf ==> NearHtf(z, h) && h.kind != z.kind
    ensures |htf| <= 3 ==> Confluence(z, htf) == 0.3 * |htf| as real
    ensures |htf| >= 4 ==> Confluence(z, htf) == 1.0
  {
    AllOpposite(z, htf);
  }

  lemma {:induction false} AllOpposite(z: Zone, htf: seq<Zone>)
    requires z.level > 0.0
    requires forall h :: h in htf ==> NearHtf(z, h) && h.kind != z.kind
    ensures NearCount(z, htf, true) == 0 && NearCount(z, htf, false) == |htf|
  {
    if htf != [] {
      assert forall g :: g in htf[1..] ==> g in htf;
      AllOpposite(z, htf[1..]);
    }
  }

  /** Volumes of the candles a zone was built on, skipping indices past the
      end of the series. */
  function PivotVolumes(indices: seq<nat>, s: seq<Candle>): (r: seq<real>)
    requires Priced(s)
    ensures |r| <= |indices|
    ensures |r| > 0 ==> |s| > 0
    ensures forall k :: 0 <= k < |r| ==> r[k] >= 0.0
  {
    if indices == [] then []
    else (if indices[0] < |s| then [s[indices[0]].volume] else []) + PivotVolumes(indices[1..], s)
  }

  /** Mean volume at the zone's candles relative to the mean volume of the
      series, times 25, capped at 25; zero without usable data. */
  function VolumeScore(z: Zone, s: seq<Candle>): (v: real)
    requires Priced(s)
    ensures 0.0 <= v <= 25.0
  {
    var pv := PivotVolumes(z.pivotIndices, s);
    if pv == [] then 0.0
    else
      var total := Mean(Volumes(s));
      if total > 0.0 then MinOf(Mean(pv) / total * 25.0, 25.0) else 0.0
  }

  /** The volume score saturates exactly when the zone's candles trade at
      least the series' average volume. */
  lemma VolumeScoreSaturates(z: Zone, s: seq<Candle>)
    requires Priced(s)
    requires PivotVolumes(z.pivotIndices, s) != []
    requires Mean(Volumes(s)) > 0.0
    ensures VolumeScore(z, s) == 25.0 <==> Mean(PivotVolumes(z.pivotIndices, s)) >= Mean(Volumes(s))
  {
    RatioAtLeastOne(Mean(PivotVolumes(z.pivotIndices, s)), Mean(Volumes(s)));
  }

  lemma RatioAtLeastOne(m: real, t: real)
    requires t > 0.0
    ensures m / t * 25.0 >= 25.0 <==> m >= t
  {
    var q := m / t;
    assert q * t == m;
    if q >= 1.0 {
      assert q * t >= 1.0 * t;
    } else {
      assert q * t < 1.0 * t;
    }
  }

  /** A zone with its score and strength filled in. */
  function ScoreZone(z: Zone, s: seq<Candle>, htf: seq<Zone>): (r: Zone)
    requires Priced(s) && z.level > 0.0 && z.reaction >= 0.0
    ensures r == z.(score := r.score, strength := r.strength)
    ensures r.score == EnhancedScore(z, VolumeScore(z, s), Confluence(z, htf))
    ensures 0.0 <= r.score <= 100.0
    ensures r.strength == Classify(r.score)
  {
    var score := EnhancedScore(z, VolumeScore(z, s), Confluence(z, htf));
    ScoreBounds(z, VolumeScore(z, s), Confluence(z, htf));
    z.(score := score, strength := Classify(score))
  }

  ghost predicate Scorable(zs: seq<Zone>) {
    forall z :: z in zs ==> z.level > 0.0 && z.reaction >= 0.0
  }

  function ScoreAll(zs: seq<Zone>, s: seq<Candle>, htf: seq<Zone>): (r: seq<Zone>)
    requires Priced(s) && Scorable(zs)
    ensures |r| == |zs|
    ensures forall i :: 0 <= i < |zs| ==> r[i] == ScoreZone(zs[i], s, htf)
  {
    seq(|zs|, i requires 0 <= i < |zs| => ScoreZone(zs[i], s, htf))
  }

  /** Records the confluence and whether there is higher-timeframe support. */
  function AddConfluence(zs: seq<Zone>, htf: seq<Zone>): (r: seq<Zone>)
    requires Scorable(zs)
    ensures |r| == |zs|
    ensures forall i :: 0 <= i < |zs| ==> r[i] == zs[i].(confluence := Some(Confluence(zs[i], htf)))
  {
    seq(|zs|, i requires 0 <= i < |zs| => zs[i].(confluence := Some(Confluence(zs[i], htf))))
  }

  /** A zone has higher-timeframe support when its recorded confluence is
      positive. */
  predicate HasHtfSupport(z: Zone) {
    z.confluence.Some? && z.confluence.value > 0.0
  }
}
