/** The proximity alert: when the price comes within a set percentage of a
    zone, an alert is appended to the session's alert log, unless the same
    zone of the same symbol was alerted less than 30 minutes ago; the log
    keeps only its 50 most recent alerts. The clock is the explicit `now`. */
module Alerts {
  import opened Candles
  import opened Zones

  /** 30 minutes, in microseconds. */
  const Cooldown: Micros := 30 * 60 * 1_000_000
  const MaxAlerts: nat := 50
  /** `datetime.min`, the origin of the clock: the time of "no alert yet". */
  const NoAlertTime: Micros := 0

  datatype Alert = Alert(
    timestamp: Micros,
    symbol: string,
    zoneKind: ZoneKind,
    zoneLevel: real,
    currentPrice: real,
    distancePct: real)

  /** Distance from the price to a zone level, in percent of the price. */
  function Distance(level: real, price: real): (d: real)
    requires price > 0.0
    ensures d >= 0.0
    ensures d == 0.0 <==> level == price
  {
    Abs(level - price) / price * 100.0
  }

  predicate SameZone(a: Alert, symbol: string, level: real) {
    a.symbol == symbol && a.zoneLevel == level
  }

  /** The latest timestamp among the alerts for this zone, if any. */
  function LatestMatch(log: seq<Alert>, symbol: string, level: real): (t: Option<Micros>)
    ensures t.None? <==> forall i :: 0 <= i < |log| ==> !SameZone(log[i], symbol, level)
    ensures t.Some? ==> forall i :: 0 <= i < |log| && SameZone(log[i], symbol, level) ==> log[i].timestamp <= t.value
    ensures t.Some? ==> exists i :: 0 <= i < |log| && SameZone(log[i], symbol, level) && log[i].timestamp == t.value
  {
    if log == [] then None
    else
      var rest := LatestMatch(log[1..], symbol, level);
      assert forall i :: 1 <= i < |log| ==> log[i] == log[1..][i - 1];
      if !SameZone(log[0], symbol, level) then rest
      else if rest.Some? && rest.value > log[0].timestamp then rest
      else Some(log[0].timestamp)
  }

  function LastAlertTime(log: seq<Alert>, symbol: string, level: real): Micros {
    match LatestMatch(log, symbol, level)
    case None => NoAlertTime
    case Some(t) => t
  }

  /** The alert a zone raises now. */
  function NewAlert(symbol: string, price: real, z: Zone, now: Micros): Alert
    requires price > 0.0
  {
    Alert(now, symbol, z.kind, z.level, price, Distance(z.level, price))
  }

  predicate Fires(log: seq<Alert>, symbol: string, price: real, z: Zone, alertDistance: real, now: Micros)
    requires price > 0.0
  {
    Distance(z.level, price) <= alertDistance && now - LastAlertTime(log, symbol, z.level) > Cooldown
  }

  /** On a clock past its first 30 minutes, a zone fires exactly when it is
      near enough and every earlier alert for it is more than 30 minutes
      old. */
  lemma FiresMeans(log: seq<Alert>, symbol: string, price: real, z: Zone, alertDistance: real, now: Micros)
    requires price > 0.0 && now > Cooldown
    ensures Fires(log, symbol, price, z, alertDistance, now) <==>
              && Distance(z.level, price) <= alertDistance
              && forall i :: 0 <= i < |log| && SameZone(log[i], symbol, z.level) ==>
                   now - log[i].timestamp > Cooldown
  {
    var t := LatestMatch(log, symbol, z.level);
    if t.Some? {
      var k :| 0 <= k < |log| && SameZone(log[k], symbol, z.level) && log[k].timestamp == t.value;
    }
  }

  /** The 50 most recent entries. */
  function Trim(log: seq<Alert>): (r: seq<Alert>)
    ensures |r| == if |log| > MaxAlerts then MaxAlerts else |log|
    ensures r == log[|log| - |r| ..]
  {
    if |log| > MaxAlerts then log[|log| - MaxAlerts ..] else log
  }

  /** One zone of the loop: an alert is added at the end, the oldest
      entries beyond 50 are dropped, or nothing changes. */
  function Step(log: seq<Alert>, symbol: string, price: real, z: Zone, alertDistance: real, now: Micros)
    : (r: seq<Alert>)
    requires price > 0.0
    ensures !Fires(log, symbol, price, z, alertDistance, now) ==> r == log
    ensures Fires(log, symbol, price, z, alertDistance, now) ==>
              && |r| == (if |log| + 1 > MaxAlerts then MaxAlerts else |log| + 1)
              && r[|r| - 1] == NewAlert(symbol, price, z, now)
              && r[..|r| - 1] == log[|log| + 1 - |r| ..]
  {
    if Fires(log, symbol, price, z, alertDistance, now) then
      var grown := log + [NewAlert(symbol, price, z, now)];
      assert grown[..|grown| - 1] == log;
      Trim(grown)
    else log
  }

  /** The whole call: every zone in turn, against the log as it grows. */
  function CheckAlerts(log: seq<Alert>, symbol: string, price: real, zones: seq<Zone>,
                       alertDistance: real, now: Micros): (r: seq<Alert>)
    requires price > 0.0
    ensures |r| <= if |log| > MaxAlerts then |log| else MaxAlerts
    ensures zones == [] ==> r == log
    decreases |zones|
  {
    if zones == [] then log
    else CheckAlerts(Step(log, symbol, price, zones[0], alertDistance, now), symbol, price, zones[1..], alertDistance, now)
  }

  /** The alerts a call raises, in zone order, each decided against the log
      as the earlier zones left it. */
  function Fired(log: seq<Alert>, symbol: string, price: real, zones: seq<Zone>,
                 alertDistance: real, now: Micros): (r: seq<Alert>)
    requires price > 0.0
    ensures |r| <= |zones|
    ensures forall a :: a in r ==> exists z :: z in zones && a == NewAlert(symbol, price, z, now)
    decreases |zones|
  {
    if zones == [] then []
    else
      var z := zones[0];
      var rest := Fired(Step(log, symbol, price, z, alertDistance, now), symbol, price, zones[1..], alertDistance, now);
      assert forall y :: y in zones[1..] ==> y in zones;
      if Fires(log, symbol, price, z, alertDistance, now) then [NewAlert(symbol, price, z, now)] + rest else rest
  }

  /** A suffix of `xs` that is at least as long as the trimmed `xs` trims to
      the same log. */
  lemma TrimSuffix(xs: seq<Alert>, ys: seq<Alert>)
    requires |ys| <= |xs| && ys == xs[|xs| - |ys| ..]
    requires |ys| >= |Trim(xs)|
    ensures Trim(ys) == Trim(xs)
  {
    var n := |Trim(xs)|;
    assert |Trim(ys)| == n;
    assert ys[|ys| - n ..] == xs[|xs| - n ..];
  }

  /** Trimming after every append is trimming once at the end. */
  lemma TrimTrim(xs: seq<Alert>, ys: seq<Alert>)
    ensures Trim(Trim(xs) + ys) == Trim(xs + ys)
  {
    var t := Trim(xs);
    assert t + ys == (xs + ys)[|xs + ys| - |t + ys| ..];
    TrimSuffix(xs + ys, t + ys);
  }

  /** The whole call leaves the log alone when no zone fires; otherwise it
      appends the alerts raised, in zone order, and keeps the last 50
      entries. */
  lemma {:induction false} CheckAlertsAppends(log: seq<Alert>, symbol: string, price: real, zones: seq<Zone>,
                                              alertDistance: real, now: Micros)
    requires price > 0.0
    ensures var f := Fired(log, symbol, price, zones, alertDistance, now);
            CheckAlerts(log, symbol, price, zones, alertDistance, now) == if f == [] then log else Trim(log + f)
    decreases |zones|
  {
    if zones != [] {
      var z := zones[0];
      var next := Step(log, symbol, price, z, alertDistance, now);
      CheckAlertsAppends(next, symbol, price, zones[1..], alertDistance, now);
      if Fires(log, symbol, price, z, alertDistance, now) {
        var a := NewAlert(symbol, price, z, now);
        var rest := Fired(next, symbol, price, zones[1..], alertDistance, now);
        assert Fired(log, symbol, price, zones, alertDistance, now) == [a] + rest;
        assert next == Trim(log + [a]);
        AppendTrimmed(log, a, rest);
      }
    }
  }

  /** Appending one alert, trimming, then appending more and trimming again
      is appending all of them and trimming once. */
  lemma AppendTrimmed(log: seq<Alert>, a: Alert, rest: seq<Alert>)
    ensures (if rest == [] then Trim(log + [a]) else Trim(Trim(log + [a]) + rest)) == Trim(log + ([a] + rest))
  {
    assert log + [a] + rest == log + ([a] + rest);
    if rest != [] {
      TrimTrim(log + [a], rest);
    }
  }

  /** No alert in `log` for this symbol and level was raised in the last 30
      minutes. */
  ghost predicate CooledDown(log: seq<Alert>, symbol: string, level: real, now: Micros) {
    forall i :: 0 <= i < |log| && SameZone(log[i], symbol, level) ==> now - log[i].timestamp > Cooldown
  }

  /** A step for a zone at another level keeps a level cooled down. */
  lemma StepKeepsCooled(log: seq<Alert>, symbol: string, price: real, y: Zone, level: real,
                        alertDistance: real, now: Micros)
    requires price > 0.0 && y.level != level
    requires CooledDown(log, symbol, level, now)
    ensures CooledDown(Step(log, symbol, price, y, alertDistance, now), symbol, level, now)
  {
    var r := Step(log, symbol, price, y, alertDistance, now);
    if Fires(log, symbol, price, y, alertDistance, now) {
      var off := |log| + 1 - |r|;
      forall i | 0 <= i < |r| && SameZone(r[i], symbol, level)
        ensures now - r[i].timestamp > Cooldown
      {
        if i < |r| - 1 {
          assert r[..|r| - 1][i] == r[i];
          assert r[i] == log[off + i];
        }
      }
    }
  }

  /** A zone near enough, whose level has no alert of the last 30 minutes
      and appears at no earlier zone, raises its alert. */
  lemma {:induction false} NearZoneFires(log: seq<Alert>, symbol: string, price: real, zones: seq<Zone>,
                                         k: nat, alertDistance: real, now: Micros)
    requires price > 0.0 && now > Cooldown
    requires k < |zones| && Distance(zones[k].level, price) <= alertDistance
    requires CooledDown(log, symbol, zones[k].level, now)
    requires forall j :: 0 <= j < k ==> zones[j].level != zones[k].level
    ensures NewAlert(symbol, price, zones[k], now) in Fired(log, symbol, price, zones, alertDistance, now)
    decreases k
  {
    var z := zones[0];
    var next := Step(log, symbol, price, z, alertDistance, now);
    if k == 0 {
      FiresMeans(log, symbol, price, z, alertDistance, now);
    } else {
      StepKeepsCooled(log, symbol, price, z, zones[k].level, alertDistance, now);
      assert zones[1..][k - 1] == zones[k];
      NearZoneFires(next, symbol, price, zones[1..], k - 1, alertDistance, now);
    }
  }

  /** With at most 50 zones, every zone that is near enough, cooled down and
      first at its level ends up in the log. */
  lemma NearZoneAlerted(log: seq<Alert>, symbol: string, price: real, zones: seq<Zone>,
                        k: nat, alertDistance: real, now: Micros)
    requires price > 0.0 && now > Cooldown && |zones| <= MaxAlerts
    requires k < |zones| && Distance(zones[k].level, price) <= alertDistance
    requires CooledDown(log, symbol, zones[k].level, now)
    requires forall j :: 0 <= j < k ==> zones[j].level != zones[k].level
    ensures NewAlert(symbol, price, zones[k], now) in CheckAlerts(log, symbol, price, zones, alertDistance, now)
  {
    var f := Fired(log, symbol, price, zones, alertDistance, now);
    NearZoneFires(log, symbol, price, zones, k, alertDistance, now);
    CheckAlertsAppends(log, symbol, price, zones, alertDistance, now);
    assert f != [];
    var all := log + f;
    var r := Trim(all);
    var i :| 0 <= i < |f| && f[i] == NewAlert(symbol, price, zones[k], now);
    assert all[|log| + i] == f[i];
    assert r[|r| - (|all| - (|log| + i))] == f[i];
  }

  /** Entries stamped `now` are this call's alerts: they are for this
      symbol, come from a zone near enough, and no two are for the same
      level. */
  ghost predicate CallInvariant(log: seq<Alert>, symbol: string, price: real, zones: seq<Zone>,
                                alertDistance: real, now: Micros)
    requires price > 0.0
  {
    && (forall i :: 0 <= i < |log| ==> log[i].timestamp < now || NewFromZones(log[i], symbol, price, zones, alertDistance, now))
    && (forall i, j :: 0 <= i < j < |log| && log[i].timestamp == now && log[j].timestamp == now ==>
          log[i].zoneLevel != log[j].zoneLevel)
  }

  ghost predicate NewFromZones(a: Alert, symbol: string, price: real, zones: seq<Zone>, alertDistance: real, now: Micros)
    requires price > 0.0
  {
    exists z :: z in zones && a == NewAlert(symbol, price, z, now) && Distance(z.level, price) <= alertDistance
  }

  /** One step keeps the invariant for any zone list containing the
      stepped zone. */
  lemma StepKeeps(log: seq<Alert>, symbol: string, price: real, z: Zone, zones: seq<Zone>,
                  alertDistance: real, now: Micros)
    requires price > 0.0 && z in zones
    requires CallInvariant(log, symbol, price, zones, alertDistance, now)
    ensures CallInvariant(Step(log, symbol, price, z, alertDistance, now), symbol, price, zones, alertDistance, now)
  {
    var r := Step(log, symbol, price, z, alertDistance, now);
    if Fires(log, symbol, price, z, alertDistance, now) {
      var a := NewAlert(symbol, price, z, now);
      var off := |log| + 1 - |r|;
      assert forall i :: 0 <= i < |r| - 1 ==> r[i] == log[off + i];
      // an alert for this level stamped now would block the new one
      forall i | 0 <= i < |log| && log[i].timestamp == now
        ensures log[i].zoneLevel != z.level
      {
        var n :| n in zones && log[i] == NewAlert(symbol, price, n, now) && Distance(n.level, price) <= alertDistance;
      }
      assert NewFromZones(a, symbol, price, zones, alertDistance, now);
      forall i | 0 <= i < |r|
        ensures r[i].timestamp < now || NewFromZones(r[i], symbol, price, zones, alertDistance, now)
      {
        if i < |r| - 1 {
          assert r[i] == log[off + i];
        }
      }
      forall i, j | 0 <= i < j < |r| && r[i].timestamp == now && r[j].timestamp == now
        ensures r[i].zoneLevel != r[j].zoneLevel
      {
        assert r[i] == log[off + i];
        if j < |r| - 1 {
          assert r[j] == log[off + j];
        }
      }
    }
  }

  lemma {:induction false} CheckKeeps(log: seq<Alert>, symbol: string, price: real, rest: seq<Zone>,
                                      zones: seq<Zone>, alertDistance: real, now: Micros)
    requires price > 0.0
    requires forall z :: z in rest ==> z in zones
    requires CallInvariant(log, symbol, price, zones, alertDistance, now)
    ensures CallInvariant(CheckAlerts(log, symbol, price, rest, alertDistance, now), symbol, price, zones, alertDistance, now)
    decreases |rest|
  {
    if rest != [] {
      StepKeeps(log, symbol, price, rest[0], zones, alertDistance, now);
      CheckKeeps(Step(log, symbol, price, rest[0], alertDistance, now), symbol, price, rest[1..], zones, alertDistance, now);
    }
  }

  /** Starting from a log of earlier alerts, a call adds at most one alert
      per zone level, every one for this symbol and for a zone within the
      alert distance. */
  lemma OnePerLevelPerCall(log: seq<Alert>, symbol: string, price: real, zones: seq<Zone>,
                           alertDistance: real, now: Micros)
    requires price > 0.0
    requires forall i :: 0 <= i < |log| ==> log[i].timestamp < now
    ensures var r := CheckAlerts(log, symbol, price, zones, alertDistance, now);
            && (forall i, j :: 0 <= i < j < |r| && r[i].timestamp == now && r[j].timestamp == now ==>
                  r[i].zoneLevel != r[j].zoneLevel)
            && (forall i :: 0 <= i < |r| && r[i].timestamp == now ==>
                  && r[i].symbol == symbol
                  && r[i].distancePct <= alertDistance
                  && exists z :: z in zones && z.level == r[i].zoneLevel && z.kind == r[i].zoneKind)
  {
    CheckKeeps(log, symbol, price, zones, zones, alertDistance, now);
    var r := CheckAlerts(log, symbol, price, zones, alertDistance, now);
    forall i | 0 <= i < |r| && r[i].timestamp == now
      ensures r[i].symbol == symbol && r[i].distancePct <= alertDistance
      ensures exists z :: z in zones && z.level == r[i].zoneLevel && z.kind == r[i].zoneKind
    {
      var z :| z in zones && r[i] == NewAlert(symbol, price, z, now) && Distance(z.level, price) <= alertDistance;
    }
  }
}
