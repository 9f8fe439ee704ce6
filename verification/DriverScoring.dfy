/** Ranking of driver candidates, and what the ranking means for the driver the reservation takes. */
module DriverScoring {
  import opened Prelude
  import opened Decimals
  import opened Messages
  import Reservations
  import Drivers

  /** Weights, and scales that the source divides by; over the reals the divisors must not be zero. */
  datatype Config = Config(
    distanceWeight: real, capacityWeight: real, loadWeight: real, freshnessWeight: real,
    maxLocationAgeSeconds: real, averageSpeedKph: real, roadFactor: real)

  datatype CapacityCandidate = CapacityCandidate(id: DriverId, capacity: int, remainingCapacity: int, loadRatio: real)

  datatype GeoCandidate = GeoCandidate(driverId: DriverId, distanceKm: real, ageSeconds: real)

  datatype Priority = Express | Standard | Scheduled

  datatype SlaRisk = Healthy | AtRisk | Breach

  /** The parts of a score, as they are reported beside it. */
  datatype Components = Components(distance: real, capacity: real, load: real, freshness: real)

  datatype ScoredCandidate = ScoredCandidate(
    driverId: DriverId, score: real, distanceKm: real, locationAgeSeconds: real,
    remainingCapacity: int, loadRatio: real, estimatedPickupMinutes: int, slaRisk: SlaRisk, components: Components)

  predicate Divisible(c: Config, radiusKm: real) {
    c.maxLocationAgeSeconds != 0.0 && c.averageSpeedKph != 0.0 && radiusKm != 0.0
  }

  /** A greater distance or age scores lower. */
  predicate PositiveScales(c: Config, radiusKm: real) { c.maxLocationAgeSeconds > 0.0 && radiusKm > 0.0 }

  predicate NonNegativeWeights(c: Config) {
    c.distanceWeight >= 0.0 && c.capacityWeight >= 0.0 && c.loadWeight >= 0.0 && c.freshnessWeight >= 0.0
  }

  function Clamp01(x: real): real { if x < 0.0 then 0.0 else if x > 1.0 then 1.0 else x }

  function Ceil(x: real): int { -((-x).Floor) }

  // ----- the score -----

  function DistanceScore(l: GeoCandidate, radiusKm: real): real
    requires radiusKm != 0.0
  {
    Clamp01(1.0 - Over(l.distanceKm, radiusKm))
  }

  function CapacityShare(d: CapacityCandidate): real {
    Clamp01(Over(d.remainingCapacity as real, (if d.capacity > 1 then d.capacity else 1) as real))
  }

  function FreshnessScore(c: Config, l: GeoCandidate): real
    requires c.maxLocationAgeSeconds != 0.0
  {
    Clamp01(1.0 - Over(l.ageSeconds, c.maxLocationAgeSeconds))
  }

  function RawScore(c: Config, d: CapacityCandidate, l: GeoCandidate, radiusKm: real): real
    requires Divisible(c, radiusKm)
  {
    100.0 * (Times(DistanceScore(l, radiusKm), c.distanceWeight) + Times(CapacityShare(d), c.capacityWeight)
             + Times(Clamp01(1.0 - d.loadRatio), c.loadWeight) + Times(FreshnessScore(c, l), c.freshnessWeight))
  }

  function SlaMinutes(p: Priority): int { if p.Express? then 8 else if p.Scheduled? then 25 else 15 }

  function RiskOf(minutes: int, p: Priority): SlaRisk {
    var sla := SlaMinutes(p);
    if minutes > sla then Breach else if minutes as real >= sla as real * 0.8 then AtRisk else Healthy
  }

  function TravelMinutes(c: Config, l: GeoCandidate): real
    requires c.averageSpeedKph != 0.0
  {
    Over(Times(l.distanceKm, c.roadFactor), c.averageSpeedKph) * 60.0
  }

  function PickupMinutes(c: Config, l: GeoCandidate): int
    requires c.averageSpeedKph != 0.0
  {
    var travel := Ceil(TravelMinutes(c, l));
    if travel > 1 then travel else 1
  }

  function ComponentsOf(c: Config, d: CapacityCandidate, l: GeoCandidate, radiusKm: real): Components
    requires Divisible(c, radiusKm)
  {
    Components(ToFixed(DistanceScore(l, radiusKm), 10_000), ToFixed(CapacityShare(d), 10_000),
               ToFixed(Clamp01(1.0 - d.loadRatio), 10_000), ToFixed(FreshnessScore(c, l), 10_000))
  }

  function Scored(c: Config, d: CapacityCandidate, l: GeoCandidate, radiusKm: real, p: Priority): ScoredCandidate
    requires Divisible(c, radiusKm)
  {
    ScoredCandidate(
      d.id, ToFixed(RawScore(c, d, l, radiusKm), 100), l.distanceKm, l.ageSeconds, d.remainingCapacity, d.loadRatio,
      PickupMinutes(c, l), RiskOf(PickupMinutes(c, l), p), ComponentsOf(c, d, l, radiusKm))
  }

  /** The driver table by id; of two entries with one id the later counts. */
  function ById(drivers: seq<CapacityCandidate>): map<DriverId, CapacityCandidate> {
    if drivers == [] then map[] else ById(drivers[..|drivers| - 1])[drivers[|drivers| - 1].id := drivers[|drivers| - 1]]
  }

  predicate Usable(drivers: map<DriverId, CapacityCandidate>, l: GeoCandidate) {
    l.driverId in drivers && drivers[l.driverId].remainingCapacity >= 1
  }

  /** The scored candidates that have capacity left, in the order of the locations. */
  function Candidates(c: Config, drivers: map<DriverId, CapacityCandidate>, locations: seq<GeoCandidate>,
                      radiusKm: real, p: Priority): seq<ScoredCandidate>
    requires Divisible(c, radiusKm)
  {
    if locations == [] then []
    else
      var rest := Candidates(c, drivers, locations[..|locations| - 1], radiusKm, p);
      var last := locations[|locations| - 1];
      if Usable(drivers, last) then rest + [Scored(c, drivers[last.driverId], last, radiusKm, p)] else rest
  }

  // ----- the sort -----

  /** Higher score first, then the closer driver, then the smaller id. */
  predicate Before(a: ScoredCandidate, b: ScoredCandidate) {
    || a.score > b.score
    || (a.score == b.score && a.distanceKm < b.distanceKm)
    || (a.score == b.score && a.distanceKm == b.distanceKm && a.driverId < b.driverId)
  }

  predicate Sorted(s: seq<ScoredCandidate>) {
    forall i, j :: 0 <= i < j < |s| ==> !Before(s[j], s[i])
  }

  function Inserted(s: seq<ScoredCandidate>, x: ScoredCandidate): (r: seq<ScoredCandidate>)
    ensures multiset(r) == multiset(s) + multiset{x}
  {
    if s == [] || !Before(x, s[|s| - 1]) then s + [x]
    else
      assert s == s[..|s| - 1] + [s[|s| - 1]];
      Inserted(s[..|s| - 1], x) + [s[|s| - 1]]
  }

  function SortedBy(s: seq<ScoredCandidate>): (r: seq<ScoredCandidate>)
    ensures multiset(r) == multiset(s)
  {
    if s == [] then []
    else
      assert s == s[..|s| - 1] + [s[|s| - 1]];
      Inserted(SortedBy(s[..|s| - 1]), s[|s| - 1])
  }

  function Rank(c: Config, drivers: seq<CapacityCandidate>, locations: seq<GeoCandidate>, radiusKm: real,
                p: Priority): seq<ScoredCandidate>
    requires Divisible(c, radiusKm)
  {
    SortedBy(Candidates(c, ById(drivers), locations, radiusKm, p))
  }

  lemma {:induction false} InsertedSorted(s: seq<ScoredCandidate>, x: ScoredCandidate)
    requires Sorted(s)
    ensures Sorted(Inserted(s, x))
  {
    if s != [] && Before(x, s[|s| - 1]) {
      var rest, last := s[..|s| - 1], s[|s| - 1];
      InsertedSorted(rest, x);
      var r := Inserted(rest, x);
      forall i | 0 <= i < |r|
        ensures !Before(last, r[i])
      {
        assert r[i] in multiset(r);
        assert r[i] == x || r[i] in rest;
      }
    }
  }

  lemma {:induction false} SortedBySorted(s: seq<ScoredCandidate>)
    ensures Sorted(SortedBy(s))
  {
    if s != [] {
      SortedBySorted(s[..|s| - 1]);
      InsertedSorted(SortedBy(s[..|s| - 1]), s[|s| - 1]);
    }
  }

  /** The ranking is a sorted permutation of the eligible candidates. */
  lemma RankIsSortedPermutation(c: Config, drivers: seq<CapacityCandidate>, locations: seq<GeoCandidate>,
                                radiusKm: real, p: Priority)
    requires Divisible(c, radiusKm)
    ensures Sorted(Rank(c, drivers, locations, radiusKm, p))
    ensures multiset(Rank(c, drivers, locations, radiusKm, p))
            == multiset(Candidates(c, ById(drivers), locations, radiusKm, p))
  {
    SortedBySorted(Candidates(c, ById(drivers), locations, radiusKm, p));
  }

  // ----- independence of the input order -----

  predicate DistinctDrivers(drivers: seq<CapacityCandidate>) {
    forall i, j :: 0 <= i < j < |drivers| ==> drivers[i].id != drivers[j].id
  }

  predicate DistinctLocations(locations: seq<GeoCandidate>) {
    forall i, j :: 0 <= i < j < |locations| ==> locations[i].driverId != locations[j].driverId
  }

  predicate DistinctScored(s: seq<ScoredCandidate>) {
    forall i, j :: 0 <= i < j < |s| ==> s[i].driverId != s[j].driverId
  }

  lemma {:induction false} ByIdExactly(drivers: seq<CapacityCandidate>)
    requires DistinctDrivers(drivers)
    ensures forall d :: d in drivers ==> d.id in ById(drivers) && ById(drivers)[d.id] == d
    ensures forall id :: id in ById(drivers) ==> ById(drivers)[id] in drivers && ById(drivers)[id].id == id
  {
    if drivers != [] {
      var rest, last := drivers[..|drivers| - 1], drivers[|drivers| - 1];
      assert drivers == rest + [last];
      ByIdExactly(rest);
      assert forall d :: d in rest ==> d.id != last.id;
    }
  }

  lemma {:induction false} CandidatesExactly(c: Config, drivers: map<DriverId, CapacityCandidate>,
                                             locations: seq<GeoCandidate>, radiusKm: real, p: Priority)
    requires Divisible(c, radiusKm) && DistinctLocations(locations)
    requires forall id :: id in drivers ==> drivers[id].id == id
    ensures
      var s := Candidates(c, drivers, locations, radiusKm, p);
      && DistinctScored(s)
      && (forall x :: x in s <==>
            exists l :: l in locations && Usable(drivers, l) && x == Scored(c, drivers[l.driverId], l, radiusKm, p))
  {
    if locations != [] {
      var rest, last := locations[..|locations| - 1], locations[|locations| - 1];
      assert locations == rest + [last];
      CandidatesExactly(c, drivers, rest, radiusKm, p);
      var s := Candidates(c, drivers, rest, radiusKm, p);
      forall i | 0 <= i < |s|
        ensures s[i].driverId != last.driverId
      {
        assert s[i] in s;
        var l :| l in rest && Usable(drivers, l) && s[i] == Scored(c, drivers[l.driverId], l, radiusKm, p);
      }
    }
  }

  lemma {:induction false} SortedUnique(s: seq<ScoredCandidate>, t: seq<ScoredCandidate>)
    requires Sorted(s) && Sorted(t) && DistinctScored(s) && DistinctScored(t)
    requires forall x :: x in s <==> x in t
    ensures s == t
    decreases |s|
  {
    assert t != [] ==> t[0] in s;
    if s != [] {
      assert s[0] in s && t[0] in t;
      assert s[0] == t[0];
      assert s == [s[0]] + s[1..] && t == [t[0]] + t[1..];
      forall x
        ensures x in s[1..] <==> x in t[1..]
      {
        assert x in s[1..] ==> x.driverId != s[0].driverId;
        assert x in t[1..] ==> x.driverId != t[0].driverId;
        assert x in s <==> x == s[0] || x in s[1..];
        assert x in t <==> x == t[0] || x in t[1..];
      }
      SortedUnique(s[1..], t[1..]);
    }
  }

  lemma DistinctFromMultiset(s: seq<ScoredCandidate>, t: seq<ScoredCandidate>)
    requires DistinctScored(s) && multiset(s) == multiset(t)
    ensures DistinctScored(t) && forall x :: x in s <==> x in t
  {
    assert forall x :: x in s <==> x in multiset(s);
    assert forall x :: x in t <==> x in multiset(t);
    forall i, j | 0 <= i < j < |t|
      ensures t[i].driverId != t[j].driverId
    {
      if t[i] == t[j] {
        assert t == t[..i] + [t[i]] + t[i + 1..j] + [t[j]] + t[j + 1..];
        assert multiset(t)[t[i]] >= 2;
        OccursOnce(s, t[i]);
      } else {
        assert t[i] in s && t[j] in s;
      }
    }
  }

  lemma {:induction false} OccursOnce(s: seq<ScoredCandidate>, x: ScoredCandidate)
    requires DistinctScored(s)
    ensures multiset(s)[x] <= 1
  {
    if s != [] {
      var rest, last := s[..|s| - 1], s[|s| - 1];
      assert s == rest + [last];
      OccursOnce(rest, x);
      if x == last {
        assert x !in rest;
      }
    }
  }

  /** With distinct driver ids, the order of the inputs does not matter. */
  lemma RankOrderIndependent(c: Config, drivers: seq<CapacityCandidate>, locations: seq<GeoCandidate>,
                             drivers': seq<CapacityCandidate>, locations': seq<GeoCandidate>, radiusKm: real,
                             p: Priority)
    requires Divisible(c, radiusKm)
    requires DistinctDrivers(drivers) && DistinctDrivers(drivers') && forall d :: d in drivers <==> d in drivers'
    requires DistinctLocations(locations) && DistinctLocations(locations')
    requires forall l :: l in locations <==> l in locations'
    ensures Rank(c, drivers, locations, radiusKm, p) == Rank(c, drivers', locations', radiusKm, p)
  {
    ByIdExactly(drivers);
    ByIdExactly(drivers');
    var m, m' := ById(drivers), ById(drivers');
    assert m == m' by {
      assert forall id :: id in m ==> m[id] in drivers' && id in m' && m'[id] == m[id];
      assert forall id :: id in m' ==> m'[id] in drivers && id in m;
    }
    var s, t := Candidates(c, m, locations, radiusKm, p), Candidates(c, m, locations', radiusKm, p);
    CandidatesExactly(c, m, locations, radiusKm, p);
    CandidatesExactly(c, m, locations', radiusKm, p);
    SortedBySorted(s);
    SortedBySorted(t);
    DistinctFromMultiset(s, SortedBy(s));
    DistinctFromMultiset(t, SortedBy(t));
    SortedUnique(SortedBy(s), SortedBy(t));
  }

  // ----- dominance -----

  /** a is strictly closer than b, and no worse in capacity, load and freshness. */
  predicate Dominates(d: CapacityCandidate, l: GeoCandidate, e: CapacityCandidate, m: GeoCandidate) {
    && l.distanceKm < m.distanceKm
    && CapacityShare(d) >= CapacityShare(e)
    && d.loadRatio <= e.loadRatio
    && l.ageSeconds <= m.ageSeconds
  }

  lemma TimesGrows(x: real, y: real, w: real)
    requires x <= y && w >= 0.0
    ensures Times(x, w) <= Times(y, w)
  {
    Distributed(y, x, w);
    assert (y - x) * w >= 0.0;
  }

  lemma DominanceScores(c: Config, d: CapacityCandidate, l: GeoCandidate, e: CapacityCandidate, m: GeoCandidate,
                        radiusKm: real)
    requires Divisible(c, radiusKm) && PositiveScales(c, radiusKm) && NonNegativeWeights(c) && Dominates(d, l, e, m)
    ensures RawScore(c, d, l, radiusKm) >= RawScore(c, e, m, radiusKm)
  {
    OverMonotone(l.distanceKm, m.distanceKm, radiusKm);
    OverMonotone(l.ageSeconds, m.ageSeconds, c.maxLocationAgeSeconds);
    TimesGrows(DistanceScore(m, radiusKm), DistanceScore(l, radiusKm), c.distanceWeight);
    TimesGrows(CapacityShare(e), CapacityShare(d), c.capacityWeight);
    TimesGrows(Clamp01(1.0 - e.loadRatio), Clamp01(1.0 - d.loadRatio), c.loadWeight);
    TimesGrows(FreshnessScore(c, m), FreshnessScore(c, l), c.freshnessWeight);
  }

  lemma DominatingBefore(c: Config, d: CapacityCandidate, l: GeoCandidate, e: CapacityCandidate, m: GeoCandidate,
                         radiusKm: real, p: Priority)
    requires Divisible(c, radiusKm) && PositiveScales(c, radiusKm) && NonNegativeWeights(c) && Dominates(d, l, e, m)
    ensures Before(Scored(c, d, l, radiusKm, p), Scored(c, e, m, radiusKm, p))
  {
    DominanceScores(c, d, l, e, m, radiusKm);
    ToFixedMonotone(RawScore(c, e, m, radiusKm), RawScore(c, d, l, radiusKm), 100);
  }

  lemma {:induction false} UsableIsCandidate(c: Config, drivers: map<DriverId, CapacityCandidate>,
                                             locations: seq<GeoCandidate>, radiusKm: real, p: Priority, l: GeoCandidate)
    requires Divisible(c, radiusKm) && l in locations && Usable(drivers, l)
    ensures Scored(c, drivers[l.driverId], l, radiusKm, p) in Candidates(c, drivers, locations, radiusKm, p)
  {
    var rest, last := locations[..|locations| - 1], locations[|locations| - 1];
    assert locations == rest + [last];
    if l != last {
      UsableIsCandidate(c, drivers, rest, radiusKm, p, l);
    }
  }

  /**
   * With non-negative weights a candidate that dominates another is ranked, and everywhere in the ranking comes
   * before it, rounding included; whatever the order and the repetitions of the inputs.
   */
  lemma DominatingFirst(c: Config, drivers: seq<CapacityCandidate>, locations: seq<GeoCandidate>, radiusKm: real,
                        p: Priority,
                        l: GeoCandidate, m: GeoCandidate)
    requires Divisible(c, radiusKm) && PositiveScales(c, radiusKm) && NonNegativeWeights(c)
    requires l in locations && m in locations && Usable(ById(drivers), l) && Usable(ById(drivers), m)
    requires Dominates(ById(drivers)[l.driverId], l, ById(drivers)[m.driverId], m)
    ensures
      var r := Rank(c, drivers, locations, radiusKm, p);
      var x := Scored(c, ById(drivers)[l.driverId], l, radiusKm, p);
      var y := Scored(c, ById(drivers)[m.driverId], m, radiusKm, p);
      x in r && y in r && forall i, j :: 0 <= i < |r| && 0 <= j < |r| && r[i] == x && r[j] == y ==> i < j
  {
    var byId := ById(drivers);
    var s := Candidates(c, byId, locations, radiusKm, p);
    var r := Rank(c, drivers, locations, radiusKm, p);
    UsableIsCandidate(c, byId, locations, radiusKm, p, l);
    UsableIsCandidate(c, byId, locations, radiusKm, p, m);
    SortedBySorted(s);
    assert forall x :: x in s ==> x in multiset(r);
    DominatingBefore(c, byId[l.driverId], l, byId[m.driverId], m, radiusKm, p);
  }

  /** The candidate list a dispatch sends with its reservation request. */
  function Ids(s: seq<ScoredCandidate>): seq<DriverId> {
    seq(|s|, i requires 0 <= i < |s| => s[i].driverId)
  }

  /**
   * The reservation takes the first driver of the ranking that is eligible and whose row nobody else has locked; no
   * other such driver of the ranking then dominates it.
   */
  lemma TakenDriverUndominated(c: Config, drivers: seq<CapacityCandidate>, locations: seq<GeoCandidate>,
                               radiusKm: real, p: Priority,
                               rows: map<DriverId, Drivers.DriverRow>, locked: set<DriverId>,
                               l: GeoCandidate, m: GeoCandidate)
    requires Divisible(c, radiusKm) && PositiveScales(c, radiusKm) && NonNegativeWeights(c)
    requires DistinctDrivers(drivers) && DistinctLocations(locations)
    requires l in locations && m in locations && Usable(ById(drivers), l) && Usable(ById(drivers), m)
    requires Reservations.FirstEligible(rows, locked, Ids(Rank(c, drivers, locations, radiusKm, p))) == Some(m.driverId)
    requires Reservations.EligibleIn(rows, l.driverId) && l.driverId !in locked
    ensures !Dominates(ById(drivers)[l.driverId], l, ById(drivers)[m.driverId], m)
  {
    var byId := ById(drivers);
    ByIdExactly(drivers);
    CandidatesExactly(c, byId, locations, radiusKm, p);
    var s := Candidates(c, byId, locations, radiusKm, p);
    var r := Rank(c, drivers, locations, radiusKm, p);
    SortedBySorted(s);
    DistinctFromMultiset(s, r);
    var x := Scored(c, byId[l.driverId], l, radiusKm, p);
    var y := Scored(c, byId[m.driverId], m, radiusKm, p);
    assert x in r && y in r;
    var i :| 0 <= i < |r| && r[i] == x;
    var j :| 0 <= j < |r| && r[j] == y;
    Reservations.FirstEligibleIsFirst(rows, locked, Ids(r));
    assert Ids(r)[i] == l.driverId && Ids(r)[j] == m.driverId;
    assert j <= i;
    if Dominates(byId[l.driverId], l, byId[m.driverId], m) {
      DominatingBefore(c, byId[l.driverId], l, byId[m.driverId], m, radiusKm, p);
      assert false;
    }
  }
}
