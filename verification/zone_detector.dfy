/** The zone pipeline: adaptive window, pivots, the fresh and tested
    passes, ranking and truncation, scoring, and higher-timeframe
    confluence. */
module ZoneDetector {
  import opened Candles
  import opened Pivots
  import opened Zones
  import opened Ranking
  import opened ZoneScoring

  /** Where a detected zone comes from: a fresh pivot of the adaptive
      window, anchored on that candle, or a tested interior candle. */
  ghost predicate Origin(s: seq<Candle>, w: nat, z: Zone)
    requires Priced(s)
  {
    || (&& FreshShape(s, z, z.kind)
        && z.level == Anchor(s[z.latestTouch], z.kind)
        && (z.kind == Supply ==> IsPivotHigh(s, w, z.latestTouch))
        && (z.kind == Demand ==> IsPivotLow(s, w, z.latestTouch)))
    || TestedShape(s, z)
  }

  /** A fresh zone built from one of the pivots of window `w` is anchored
      on that pivot. */
  lemma FreshZoneOrigin(s: seq<Candle>, w: nat, pivots: seq<Pivot>, z: Zone)
    requires Priced(s)
    requires pivots == if z.kind == Supply then PivotHighs(s, w) else PivotLows(s, w)
    requires FreshShape(s, z, z.kind)
    requires exists p :: p in pivots && z.latestTouch == p.index && z.level == p.price
    ensures Origin(s, w, z)
  {
    var p :| p in pivots && z.latestTouch == p.index && z.level == p.price;
    var k :| 0 <= k < |pivots| && pivots[k] == p;
  }

  /** The fresh zones built from the pivots of window `w` are anchored on
      a pivot of the matching kind. */
  lemma FreshOrigin(s: seq<Candle>, w: nat, kind: ZoneKind)
    requires Priced(s)
    ensures var pivots := if kind == Supply then PivotHighs(s, w) else PivotLows(s, w);
            forall z :: z in FreshZones(s, pivots, kind) ==> Origin(s, w, z) && Unscored(z)
  {
    var pivots := if kind == Supply then PivotHighs(s, w) else PivotLows(s, w);
    var zs := FreshZones(s, pivots, kind);
    forall z | z in zs ensures Origin(s, w, z) && Unscored(z) {
      FreshZoneOrigin(s, w, pivots, z);
    }
  }

  /** A zone with an origin lies above zero and has a non-negative
      reaction. */
  lemma OriginScorable(s: seq<Candle>, w: nat, z: Zone)
    requires Priced(s) && Origin(s, w, z)
    ensures z.level > 0.0 && z.reaction >= 0.0
  {
  }

  /** The three passes together: every proposed zone has an origin, is
      unscored and can be scored. */
  lemma PassesCombine(s: seq<Candle>, w: nat, supply: seq<Zone>, demand: seq<Zone>, tested: seq<Zone>)
    requires Priced(s)
    requires forall z :: z in supply ==> Origin(s, w, z) && Unscored(z)
    requires forall z :: z in demand ==> Origin(s, w, z) && Unscored(z)
    requires forall z :: z in tested ==> TestedShape(s, z) && Unscored(z)
    ensures forall z :: z in supply + demand + tested ==> Origin(s, w, z) && Unscored(z)
    ensures Scorable(supply + demand + tested)
  {
    forall z | z in supply + demand + tested
      ensures Origin(s, w, z) && Unscored(z) && z.level > 0.0 && z.reaction >= 0.0
    {
      assert z in supply || z in demand || z in tested;
      OriginScorable(s, w, z);
    }
  }

  /** All zones the fresh supply, fresh demand and tested passes propose,
      in that order. */
  function Candidates(s: seq<Candle>, timeframe: string): (r: seq<Zone>)
    requires Priced(s)
    ensures forall z :: z in r ==> Origin(s, WindowSize(timeframe, |s|), z) && Unscored(z)
    ensures Scorable(r)
  {
    var w := WindowSize(timeframe, |s|);
    var supply := FreshZones(s, PivotHighs(s, w), Supply);
    var demand := FreshZones(s, PivotLows(s, w), Demand);
    var tested := TestedZones(s);
    FreshOrigin(s, w, Supply);
    FreshOrigin(s, w, Demand);
    PassesCombine(s, w, supply, demand, tested);
    supply + demand + tested
  }

  /** Scoring and confluence leave the ranking key untouched, so a ranked
      sequence stays ranked. */
  lemma RankedPreserved(zs: seq<Zone>, ys: seq<Zone>)
    requires Ranked(zs, Outranks)
    requires |ys| == |zs|
    requires forall i :: 0 <= i < |zs| ==>
               ys[i].quality == zs[i].quality && ys[i].reaction == zs[i].reaction &&
               ys[i].isFresh == zs[i].isFresh && ys[i].latestTouch == zs[i].latestTouch
    ensures Ranked(ys, Outranks)
  {
    forall i, j | 0 <= i < j < |ys| ensures !Outranks(ys[j], ys[i]) {
      assert !Outranks(zs[j], zs[i]);
    }
  }

  /** What `detect_zones` promises of each zone it reports. */
  ghost predicate Reported(s: seq<Candle>, w: nat, htf: seq<Zone>, z: Zone)
    requires Priced(s)
  {
    && Origin(s, w, z)
    && z.level > 0.0
    && (z.isFresh ==> IsFreshZone(s, z.latestTouch, z.level, z.kind))
    && 0.0 <= z.score <= 100.0
    && z.strength == Classify(z.score)
    && z.htfTimeframe == None
    && (htf == [] ==> z.confluence == None)
    && (htf != [] ==> z.confluence.Some? &&
                      (HasHtfSupport(z) <==> exists h :: h in htf && NearHtf(z, h)))
  }

  /** One candidate after scoring and, when higher-timeframe zones are
      given, confluence. */
  function Finish(c: Zone, s: seq<Candle>, htf: seq<Zone>): Zone
    requires Priced(s) && c.level > 0.0 && c.reaction >= 0.0
  {
    var scored := ScoreZone(c, s, htf);
    if htf == [] then scored else scored.(confluence := Some(Confluence(scored, htf)))
  }

  /** Scoring and confluence keep what identifies a zone. */
  lemma FinishKeeps(c: Zone, s: seq<Candle>, htf: seq<Zone>)
    requires Priced(s) && c.level > 0.0 && c.reaction >= 0.0
    ensures Finish(c, s, htf).kind == c.kind && Finish(c, s, htf).level == c.level
    ensures Finish(c, s, htf).latestTouch == c.latestTouch && Finish(c, s, htf).isFresh == c.isFresh
  {
  }

  lemma FinishReported(s: seq<Candle>, w: nat, htf: seq<Zone>, c: Zone)
    requires Priced(s) && Origin(s, w, c) && Unscored(c) && c.level > 0.0 && c.reaction >= 0.0
    ensures Reported(s, w, htf, Finish(c, s, htf))
  {
    var scored := ScoreZone(c, s, htf);
    var f := Finish(c, s, htf);
    ReportedFrom(s, w, htf, c, f, scored.score);
  }

  /** A candidate with a score in range and its class, and with confluence
      recorded as `Finish` records it, satisfies `Reported`. */
  lemma ReportedFrom(s: seq<Candle>, w: nat, htf: seq<Zone>, c: Zone, f: Zone, score: real)
    requires Priced(s) && Origin(s, w, c) && Unscored(c) && c.level > 0.0
    requires 0.0 <= score <= 100.0
    requires htf == [] ==> f == c.(score := score, strength := Classify(score))
    requires htf != [] ==>
               var scored := c.(score := score, strength := Classify(score));
               f == scored.(confluence := Some(Confluence(scored, htf)))
    ensures Reported(s, w, htf, f)
  {
    var scored := c.(score := score, strength := Classify(score));
    assert Origin(s, w, scored);
  }

  /** Scoring of every ranked zone, then confluence when higher-timeframe
      zones are given. */
  function Finalise(ranked: seq<Zone>, s: seq<Candle>, htf: seq<Zone>): (r: seq<Zone>)
    requires Priced(s) && Scorable(ranked) && Ranked(ranked, Outranks)
    ensures |r| == |ranked|
    ensures forall i :: 0 <= i < |r| ==> r[i] == Finish(ranked[i], s, htf)
    ensures Ranked(r, Outranks)
  {
    var scored := ScoreAll(ranked, s, htf);
    var r := if htf == [] then scored else AddConfluence(scored, htf);
    RankedPreserved(ranked, scored);
    RankedPreserved(scored, r);
    r
  }

  /** `detect_zones`: at most 12 zones, the ranked candidates scored, in
      ranking order; `DetectZonesReported` states what each of them
      satisfies. */
  function DetectZones(s: seq<Candle>, timeframe: string, htf: seq<Zone>): (r: seq<Zone>)
    requires Priced(s)
    ensures |r| <= MaxZones
    ensures Ranked(r, Outranks)
    ensures |r| == |RankZones(Candidates(s, timeframe))|
    ensures forall i :: 0 <= i < |r| ==>
              r[i] == Finish(RankZones(Candidates(s, timeframe))[i], s, htf)
  {
    var ranked := RankZones(Candidates(s, timeframe));
    assert Scorable(ranked) by {
      forall z | z in ranked ensures z.level > 0.0 && z.reaction >= 0.0 {
        RankedCandidate(s, timeframe, z);
      }
    }
    Finalise(ranked, s, htf)
  }

  /** Each detected zone comes from one of the two passes and satisfies
      `Reported`. */
  lemma DetectZonesReported(s: seq<Candle>, timeframe: string, htf: seq<Zone>)
    requires Priced(s)
    ensures forall z :: z in DetectZones(s, timeframe, htf) ==> Reported(s, WindowSize(timeframe, |s|), htf, z)
  {
    var ranked := RankZones(Candidates(s, timeframe));
    AllReported(s, timeframe, htf, ranked, DetectZones(s, timeframe, htf));
  }

  lemma AllReported(s: seq<Candle>, timeframe: string, htf: seq<Zone>, ranked: seq<Zone>, r: seq<Zone>)
    requires Priced(s)
    requires ranked == RankZones(Candidates(s, timeframe))
    requires |r| == |ranked| && forall i :: 0 <= i < |r| ==> r[i] == Finish(ranked[i], s, htf)
    ensures forall z :: z in r ==> Reported(s, WindowSize(timeframe, |s|), htf, z)
  {
    forall z | z in r ensures Reported(s, WindowSize(timeframe, |s|), htf, z) {
      var i :| 0 <= i < |r| && r[i] == z;
      RankedCandidate(s, timeframe, ranked[i]);
      FinishReported(s, WindowSize(timeframe, |s|), htf, ranked[i]);
    }
  }

  lemma RankedCandidate(s: seq<Candle>, timeframe: string, z: Zone)
    requires Priced(s)
    requires z in RankZones(Candidates(s, timeframe))
    ensures Origin(s, WindowSize(timeframe, |s|), z) && Unscored(z) && z.level > 0.0 && z.reaction >= 0.0
  {
    assert z in Candidates(s, timeframe);
  }

  /** A fresh pivot low that reacted by 3% or more is among the candidates. */
  lemma FreshPivotIsCandidate(s: seq<Candle>, timeframe: string, i: nat) returns (c: Zone)
    requires Priced(s)
    requires IsPivotLow(s, WindowSize(timeframe, |s|), i)
    requires IsFreshZone(s, i, s[i].low, Demand)
    requires ReactionStrength(s, i, Demand) >= 3.0
    ensures c in Candidates(s, timeframe)
    ensures c.kind == Demand && c.isFresh && c.latestTouch == i && c.level == s[i].low
  {
    var w := WindowSize(timeframe, |s|);
    var lows := PivotLows(s, w);
    var k :| 0 <= k < |lows| && lows[k].index == i;
    assert lows[k] in lows;
    var demand := FreshZones(s, lows, Demand);
    c :| c in demand && c.latestTouch == i && c.level == s[i].low;
    var supply := FreshZones(s, PivotHighs(s, w), Supply);
    assert Candidates(s, timeframe) == supply + demand + TestedZones(s);
  }

  /** A fresh pivot high that reacted by 3% or more is among the
      candidates. */
  lemma FreshSupplyIsCandidate(s: seq<Candle>, timeframe: string, i: nat) returns (c: Zone)
    requires Priced(s)
    requires IsPivotHigh(s, WindowSize(timeframe, |s|), i)
    requires IsFreshZone(s, i, s[i].high, Supply)
    requires ReactionStrength(s, i, Supply) >= 3.0
    ensures c in Candidates(s, timeframe)
    ensures c.kind == Supply && c.isFresh && c.latestTouch == i && c.level == s[i].high
  {
    var w := WindowSize(timeframe, |s|);
    var highs := PivotHighs(s, w);
    var k :| 0 <= k < |highs| && highs[k].index == i;
    assert highs[k] in highs;
    var supply := FreshZones(s, highs, Supply);
    c :| c in supply && c.latestTouch == i && c.level == s[i].high;
    var demand := FreshZones(s, PivotLows(s, w), Demand);
    assert Candidates(s, timeframe) == supply + demand + TestedZones(s);
  }

  /** An interior candle that qualifies as a tested zone of a kind is among
      the candidates. */
  lemma TestedIsCandidate(s: seq<Candle>, timeframe: string, j: nat, kind: ZoneKind) returns (c: Zone)
    requires Priced(s)
    requires 10 <= j < |s| - 10 && TestedQualifies(s, j, kind)
    ensures c in Candidates(s, timeframe)
    ensures c.kind == kind && !c.isFresh && c.latestTouch == j && c.level == Anchor(s[j], kind)
  {
    var w := WindowSize(timeframe, |s|);
    var tested := TestedZones(s);
    c :| c in tested && c.latestTouch == j && c.kind == kind;
    var supply := FreshZones(s, PivotHighs(s, w), Supply);
    var demand := FreshZones(s, PivotLows(s, w), Demand);
    assert Candidates(s, timeframe) == supply + demand + tested;
  }

  /** When the passes propose at most 12 zones nothing is cut: every
      candidate is reported with its kind, level, touch and freshness. */
  lemma CandidateReported(s: seq<Candle>, timeframe: string, htf: seq<Zone>, c: Zone)
    requires Priced(s)
    requires |Candidates(s, timeframe)| <= MaxZones
    requires c in Candidates(s, timeframe)
    ensures exists z :: z in DetectZones(s, timeframe, htf) &&
              z.kind == c.kind && z.isFresh == c.isFresh && z.latestTouch == c.latestTouch && z.level == c.level
  {
    var j := KeptByRanking(Candidates(s, timeframe), c);
    RankedCandidate(s, timeframe, c);
    FinishKeeps(c, s, htf);
    var r := DetectZones(s, timeframe, htf);
    assert r[j] in r;
  }

  /** In particular every fresh pivot low that reacted by 3% or more is
      reported as a demand zone. */
  lemma FreshPivotReported(s: seq<Candle>, timeframe: string, htf: seq<Zone>, i: nat)
    requires Priced(s)
    requires |Candidates(s, timeframe)| <= MaxZones
    requires IsPivotLow(s, WindowSize(timeframe, |s|), i)
    requires IsFreshZone(s, i, s[i].low, Demand)
    requires ReactionStrength(s, i, Demand) >= 3.0
    ensures exists z :: z in DetectZones(s, timeframe, htf) &&
              z.kind == Demand && z.isFresh && z.latestTouch == i && z.level == s[i].low
  {
    var c := FreshPivotIsCandidate(s, timeframe, i);
    CandidateReported(s, timeframe, htf, c);
  }

  /** With no more than 12 zones, ranking drops none of them. */
  lemma KeptByRanking(zs: seq<Zone>, c: Zone) returns (j: nat)
    requires |zs| <= MaxZones && c in zs
    ensures j < |RankZones(zs)| && RankZones(zs)[j] == c
  {
    var ranked := RankZones(zs);
    assert c in multiset(ranked);
    j :| 0 <= j < |ranked| && ranked[j] == c;
  }
}
