/** What a score and a ranking say of a candidate: the worth of each part, the times and risks, and the order. */
module ScoreMeaning {
  import opened Prelude
  import opened Decimals
  import opened Messages
  import opened DriverScoring

  // ----- the parts -----

  /** One at the pickup, none from the radius on, and in between the share of the radius that is left. */
  lemma DistancePart(l: GeoCandidate, radiusKm: real)
    requires radiusKm > 0.0
    ensures 0.0 <= l.distanceKm <= radiusKm ==> Times(DistanceScore(l, radiusKm), radiusKm) == radiusKm - l.distanceKm
    ensures l.distanceKm <= 0.0 ==> DistanceScore(l, radiusKm) == 1.0
    ensures l.distanceKm >= radiusKm ==> DistanceScore(l, radiusKm) == 0.0
  {
    LeftOver(l.distanceKm, radiusKm);
  }

  /** One for a new sample, none from the maximum age on, and in between the share of that age that is left. */
  lemma FreshnessPart(c: Config, l: GeoCandidate)
    requires c.maxLocationAgeSeconds > 0.0
    ensures 0.0 <= l.ageSeconds <= c.maxLocationAgeSeconds ==>
              Times(FreshnessScore(c, l), c.maxLocationAgeSeconds) == c.maxLocationAgeSeconds - l.ageSeconds
    ensures l.ageSeconds <= 0.0 ==> FreshnessScore(c, l) == 1.0
    ensures l.ageSeconds >= c.maxLocationAgeSeconds ==> FreshnessScore(c, l) == 0.0
  {
    LeftOver(l.ageSeconds, c.maxLocationAgeSeconds);
  }

  lemma OverSelf(whole: real)
    requires whole > 0.0
    ensures Over(0.0, whole) == 0.0 && Over(whole, whole) == 1.0
  {
    Divided(0.0, whole);
    Divided(1.0, whole);
    assert Times(0.0, whole) == 0.0 && Times(1.0, whole) == whole;
  }

  lemma LeftOver(x: real, whole: real)
    requires whole > 0.0
    ensures
      var part := Clamp01(1.0 - Over(x, whole));
      && (0.0 <= x <= whole ==> Times(part, whole) == whole - x)
      && (x <= 0.0 ==> part == 1.0)
      && (x >= whole ==> part == 0.0)
  {
    OverMonotone(0.0, x, whole);
    OverMonotone(x, 0.0, whole);
    OverMonotone(x, whole, whole);
    OverMonotone(whole, x, whole);
    Divided(x, whole);
    OverSelf(whole);
    Distributed(1.0, Over(x, whole), whole);
  }

  /** The share of the capacity that is free, counting a capacity below one as one. */
  lemma CapacityPart(d: CapacityCandidate)
    ensures
      var capacity := if d.capacity >= 1 then d.capacity else 1;
      && (0 <= d.remainingCapacity <= capacity ==>
            Times(CapacityShare(d), capacity as real) == d.remainingCapacity as real)
      && (d.remainingCapacity <= 0 ==> CapacityShare(d) == 0.0)
      && (d.remainingCapacity >= capacity ==> CapacityShare(d) == 1.0)
  {
    var capacity := (if d.capacity >= 1 then d.capacity else 1) as real;
    var free := d.remainingCapacity as real;
    OverMonotone(0.0, free, capacity);
    OverMonotone(free, 0.0, capacity);
    OverMonotone(free, capacity, capacity);
    OverMonotone(capacity, free, capacity);
    Divided(free, capacity);
    OverSelf(capacity);
  }

  /** The share of the load that is free: one for none, none for a full load or more. */
  function LoadPart(d: CapacityCandidate): real {
    if d.loadRatio <= 0.0 then 1.0 else if d.loadRatio >= 1.0 then 0.0 else 1.0 - d.loadRatio
  }

  // ----- the worth of each part -----

  /** A candidate with nothing in its favour scores nothing. */
  lemma NothingScoresNothing(c: Config, d: CapacityCandidate, l: GeoCandidate, radiusKm: real)
    requires Divisible(c, radiusKm) && PositiveScales(c, radiusKm)
    requires l.distanceKm >= radiusKm && l.ageSeconds >= c.maxLocationAgeSeconds
    requires d.remainingCapacity <= 0 && d.loadRatio >= 1.0
    ensures RawScore(c, d, l, radiusKm) == 0.0
  {
    DistancePart(l, radiusKm);
    FreshnessPart(c, l);
    CapacityPart(d);
    assert Times(0.0, c.distanceWeight) == Times(0.0, c.capacityWeight) == 0.0;
    assert Times(0.0, c.loadWeight) == Times(0.0, c.freshnessWeight) == 0.0;
  }

  /** Of two candidates alike but for the distance, the closer scores more, in proportion to the distance weight. */
  lemma DistanceWorth(c: Config, d: CapacityCandidate, l: GeoCandidate, m: GeoCandidate, radiusKm: real)
    requires Divisible(c, radiusKm) && radiusKm > 0.0 && l.ageSeconds == m.ageSeconds
    requires 0.0 <= l.distanceKm <= radiusKm && 0.0 <= m.distanceKm <= radiusKm
    ensures Times(RawScore(c, d, l, radiusKm) - RawScore(c, d, m, radiusKm), radiusKm)
            == 100.0 * Times(c.distanceWeight, m.distanceKm - l.distanceKm)
  {
    DistancePart(l, radiusKm);
    DistancePart(m, radiusKm);
    DistanceGain(c, d, l, m, radiusKm);
    PartWorth(DistanceScore(l, radiusKm), DistanceScore(m, radiusKm), c.distanceWeight, radiusKm,
              RawScore(c, d, l, radiusKm) - RawScore(c, d, m, radiusKm), m.distanceKm - l.distanceKm);
  }

  lemma DistanceGain(c: Config, d: CapacityCandidate, l: GeoCandidate, m: GeoCandidate, radiusKm: real)
    requires Divisible(c, radiusKm) && l.ageSeconds == m.ageSeconds
    ensures RawScore(c, d, l, radiusKm) - RawScore(c, d, m, radiusKm)
            == 100.0 * (Times(DistanceScore(l, radiusKm), c.distanceWeight) - Times(DistanceScore(m, radiusKm),
                                                                                    c.distanceWeight))
  {
    assert FreshnessScore(c, l) == FreshnessScore(c, m);
  }

  lemma FreshnessGain(c: Config, d: CapacityCandidate, l: GeoCandidate, m: GeoCandidate, radiusKm: real)
    requires Divisible(c, radiusKm) && l.distanceKm == m.distanceKm
    ensures RawScore(c, d, l, radiusKm) - RawScore(c, d, m, radiusKm)
            == 100.0 * (Times(FreshnessScore(c, l), c.freshnessWeight) - Times(FreshnessScore(c, m), c.freshnessWeight))
  {
    assert DistanceScore(l, radiusKm) == DistanceScore(m, radiusKm);
  }

  /** What a part is worth: its share of a whole, times its weight. */
  lemma PartWorth(a: real, b: real, weight: real, whole: real, gain: real, share: real)
    requires gain == 100.0 * (Times(a, weight) - Times(b, weight)) && Times(a, whole) - Times(b, whole) == share
    ensures Times(gain, whole) == 100.0 * Times(weight, share)
  {
    assert (a - b) * whole == share;
    assert gain == 100.0 * (a - b) * weight;
    assert gain * whole == 100.0 * weight * ((a - b) * whole);
  }

  lemma CapacityWorth(c: Config, d: CapacityCandidate, e: CapacityCandidate, l: GeoCandidate, radiusKm: real)
    requires Divisible(c, radiusKm) && d.loadRatio == e.loadRatio && d.capacity == e.capacity >= 1
    requires 0 <= d.remainingCapacity <= d.capacity && 0 <= e.remainingCapacity <= e.capacity
    ensures Times(RawScore(c, d, l, radiusKm) - RawScore(c, e, l, radiusKm), d.capacity as real)
            == 100.0 * Times(c.capacityWeight, (d.remainingCapacity - e.remainingCapacity) as real)
  {
    CapacityPart(d);
    CapacityPart(e);
    PartWorth(CapacityShare(d), CapacityShare(e), c.capacityWeight, d.capacity as real,
              RawScore(c, d, l, radiusKm) - RawScore(c, e, l, radiusKm),
                (d.remainingCapacity - e.remainingCapacity) as real);
  }

  lemma LoadWorth(c: Config, d: CapacityCandidate, e: CapacityCandidate, l: GeoCandidate, radiusKm: real)
    requires Divisible(c, radiusKm) && d.remainingCapacity == e.remainingCapacity && d.capacity == e.capacity
    ensures RawScore(c, d, l, radiusKm) - RawScore(c, e, l, radiusKm)
            == 100.0 * (Times(LoadPart(d), c.loadWeight) - Times(LoadPart(e), c.loadWeight))
  {
    assert CapacityShare(d) == CapacityShare(e);
  }

  lemma FreshnessWorth(c: Config, d: CapacityCandidate, l: GeoCandidate, m: GeoCandidate, radiusKm: real)
    requires Divisible(c, radiusKm) && c.maxLocationAgeSeconds > 0.0 && l.distanceKm == m.distanceKm
    requires 0.0 <= l.ageSeconds <= c.maxLocationAgeSeconds && 0.0 <= m.ageSeconds <= c.maxLocationAgeSeconds
    ensures Times(RawScore(c, d, l, radiusKm) - RawScore(c, d, m, radiusKm), c.maxLocationAgeSeconds)
            == 100.0 * Times(c.freshnessWeight, m.ageSeconds - l.ageSeconds)
  {
    FreshnessPart(c, l);
    FreshnessPart(c, m);
    FreshnessGain(c, d, l, m, radiusKm);
    PartWorth(FreshnessScore(c, l), FreshnessScore(c, m), c.freshnessWeight, c.maxLocationAgeSeconds,
              RawScore(c, d, l, radiusKm) - RawScore(c, d, m, radiusKm), m.ageSeconds - l.ageSeconds);
  }

  /** Beyond the radius and the maximum age, and past full and empty, nothing changes any more. */
  lemma WorthIsBounded(c: Config, d: CapacityCandidate, e: CapacityCandidate, l: GeoCandidate, m: GeoCandidate,
                       radiusKm: real)
    requires Divisible(c, radiusKm) && PositiveScales(c, radiusKm) && d.loadRatio == e.loadRatio
    requires d.capacity == e.capacity
    requires l.distanceKm == m.distanceKm || (l.distanceKm >= radiusKm && m.distanceKm >= radiusKm)
                                          || (l.distanceKm <= 0.0 && m.distanceKm <= 0.0)
    requires l.ageSeconds == m.ageSeconds
             || (l.ageSeconds >= c.maxLocationAgeSeconds && m.ageSeconds >= c.maxLocationAgeSeconds)
                                          || (l.ageSeconds <= 0.0 && m.ageSeconds <= 0.0)
    requires d.remainingCapacity == e.remainingCapacity || (d.remainingCapacity <= 0 && e.remainingCapacity <= 0)
             || (d.capacity >= 1 && d.remainingCapacity >= d.capacity && e.remainingCapacity >= e.capacity)
    ensures RawScore(c, d, l, radiusKm) == RawScore(c, e, m, radiusKm)
  {
    DistancePart(l, radiusKm);
    DistancePart(m, radiusKm);
    FreshnessPart(c, l);
    FreshnessPart(c, m);
    CapacityPart(d);
    CapacityPart(e);
  }

  // ----- the record -----

  lemma CeilBounds(x: real)
    ensures (Ceil(x) - 1) as real < x <= Ceil(x) as real
  {
    var down := (-x).Floor;
    assert down as real <= -x < (down + 1) as real;
  }

  /** The estimate is the smallest whole number of minutes, at least one, in which the way can be driven. */
  lemma MinutesSuffice(c: Config, l: GeoCandidate)
    requires c.averageSpeedKph > 0.0
    ensures
      var minutes, way := PickupMinutes(c, l), 60.0 * Times(l.distanceKm, c.roadFactor);
      && minutes >= 1
      && Times(minutes as real, c.averageSpeedKph) >= way
      && (minutes > 1 ==> Times((minutes - 1) as real, c.averageSpeedKph) < way)
  {
    var way, exact, minutes := Times(l.distanceKm, c.roadFactor), TravelMinutes(c, l), PickupMinutes(c, l);
    Divided(way, c.averageSpeedKph);
    assert Times(exact, c.averageSpeedKph) == 60.0 * Times(Over(way, c.averageSpeedKph), c.averageSpeedKph);
    CeilBounds(exact);
    TimesMonotone(exact, minutes as real, c.averageSpeedKph);
    TimesMonotone(exact, (minutes - 1) as real, c.averageSpeedKph);
  }

  /** The minutes promised for each priority. */
  function Promised(p: Priority): int {
    match p
    case Express => 8
    case Standard => 15
    case Scheduled => 25
  }

  /** A breach is beyond the promised time; at risk is its last fifth; otherwise all is well. */
  lemma RiskMeans(minutes: int, p: Priority)
    ensures RiskOf(minutes, p).Breach? <==> minutes > Promised(p)
    ensures RiskOf(minutes, p).Healthy? <==> 5 * minutes < 4 * Promised(p)
  {
  }

  predicate Near(x: real, y: real, unit: real) { -unit <= 2.0 * (x - y) <= unit }

  lemma RoundedNear(x: real, scale: int)
    requires scale > 0
    ensures Near(ToFixed(x, scale), x, Over(1.0, scale as real))
  {
    ToFixedError(x, scale);
    var error := ToFixed(x, scale) - x;
    Divided(2.0 * error, scale as real);
    Divided(1.0, scale as real);
    TimesMonotone(2.0 * error, Over(1.0, scale as real), scale as real);
    TimesMonotone(-Over(1.0, scale as real), 2.0 * error, scale as real);
    Distributed(0.0, Over(1.0, scale as real), scale as real);
    assert Times(2.0 * error, scale as real) == 2.0 * Times(error, scale as real);
  }

  /** A record is about its own driver, with the data it came from and its score and parts to the given places. */
  lemma RecordMeans(c: Config, d: CapacityCandidate, l: GeoCandidate, radiusKm: real, p: Priority)
    requires Divisible(c, radiusKm)
    ensures
      var x := Scored(c, d, l, radiusKm, p);
      && x.driverId == d.id && x.distanceKm == l.distanceKm && x.locationAgeSeconds == l.ageSeconds
      && x.remainingCapacity == d.remainingCapacity && x.loadRatio == d.loadRatio
      && Near(x.score, RawScore(c, d, l, radiusKm), 0.01)
      && x.estimatedPickupMinutes == PickupMinutes(c, l) && x.slaRisk == RiskOf(PickupMinutes(c, l), p)
      && Near(x.components.distance, DistanceScore(l, radiusKm), 0.0001)
      && Near(x.components.capacity, CapacityShare(d), 0.0001)
      && Near(x.components.load, LoadPart(d), 0.0001)
      && Near(x.components.freshness, FreshnessScore(c, l), 0.0001)
  {
    RoundedNear(RawScore(c, d, l, radiusKm), 100);
    RoundedNear(DistanceScore(l, radiusKm), 10_000);
    RoundedNear(CapacityShare(d), 10_000);
    RoundedNear(LoadPart(d), 10_000);
    RoundedNear(FreshnessScore(c, l), 10_000);
    assert Over(1.0, 100.0) == 0.01 && Over(1.0, 10_000.0) == 0.0001;
  }

  // ----- the ranking -----

  predicate LastListed(drivers: seq<CapacityCandidate>, id: DriverId, k: nat)
    requires k < |drivers|
  {
    drivers[k].id == id && forall j :: k < j < |drivers| ==> drivers[j].id != id
  }

  /** The capacity data used for a driver is the last listed under its id. */
  lemma {:induction false} ByIdIsLast(drivers: seq<CapacityCandidate>, id: DriverId)
    ensures id !in ById(drivers) <==> forall k :: 0 <= k < |drivers| ==> drivers[k].id != id
    ensures forall k :: 0 <= k < |drivers| && LastListed(drivers, id, k) ==>
              id in ById(drivers) && ById(drivers)[id] == drivers[k]
  {
    if drivers != [] {
      var rest := drivers[..|drivers| - 1];
      ByIdIsLast(rest, id);
      assert forall k :: 0 <= k < |rest| && LastListed(drivers, id, k) ==>
               LastListed(rest, id, k) && rest[k] == drivers[k];
    }
  }

  /** Exactly the located drivers that are listed with free capacity are ranked. */
  lemma {:induction false} CandidatesAre(c: Config, byId: map<DriverId, CapacityCandidate>,
                                         locations: seq<GeoCandidate>,
                                         radiusKm: real, p: Priority, x: ScoredCandidate)
    requires Divisible(c, radiusKm)
    ensures x in Candidates(c, byId, locations, radiusKm, p) <==>
              exists l :: l in locations && l.driverId in byId && byId[l.driverId].remainingCapacity >= 1
                          && x == Scored(c, byId[l.driverId], l, radiusKm, p)
  {
    if locations != [] {
      var rest, last := locations[..|locations| - 1], locations[|locations| - 1];
      assert locations == rest + [last];
      CandidatesAre(c, byId, rest, radiusKm, p, x);
    }
  }

  lemma RankedExactly(c: Config, drivers: seq<CapacityCandidate>, locations: seq<GeoCandidate>, radiusKm: real,
                      p: Priority, x: ScoredCandidate)
    requires Divisible(c, radiusKm)
    ensures
      var byId := ById(drivers);
      x in Rank(c, drivers, locations, radiusKm, p) <==>
        exists l :: l in locations && l.driverId in byId && byId[l.driverId].remainingCapacity >= 1
                    && x == Scored(c, byId[l.driverId], l, radiusKm, p)
  {
    var s := Candidates(c, ById(drivers), locations, radiusKm, p);
    CandidatesAre(c, ById(drivers), locations, radiusKm, p, x);
    assert x in s <==> x in multiset(s);
    assert x in Rank(c, drivers, locations, radiusKm, p) <==> x in multiset(SortedBy(s));
  }

  /** Higher scores come first, of equal scores the closer driver, and of equally close ones the smaller id. */
  lemma RankedInOrder(c: Config, drivers: seq<CapacityCandidate>, locations: seq<GeoCandidate>, radiusKm: real,
                      p: Priority, i: nat, j: nat)
    requires Divisible(c, radiusKm) && i < j < |Rank(c, drivers, locations, radiusKm, p)|
    ensures
      var a, b := Rank(c, drivers, locations, radiusKm, p)[i], Rank(c, drivers, locations, radiusKm, p)[j];
      && a.score >= b.score
      && (a.score == b.score ==> a.distanceKm <= b.distanceKm)
      && (a.score == b.score && a.distanceKm == b.distanceKm ==> a.driverId <= b.driverId)
  {
    RankIsSortedPermutation(c, drivers, locations, radiusKm, p);
    var r := Rank(c, drivers, locations, radiusKm, p);
    assert !Before(r[j], r[i]);
  }
}
