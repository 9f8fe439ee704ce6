/**
 * The two location stores of the tracking service: the durable tables, written by
 * queue jobs that may be repeated and reordered, and the live store in front of them.
 */
module LocationStores {
  import opened Prelude
  import opened Decimals
  import opened Messages

  /** A position sample; times are epoch milliseconds. */
  datatype Sample = Sample(
    driverId: DriverId, latitude: real, longitude: real,
    speedKph: Option<real>, headingDegrees: Option<real>,
    recordedAt: int, receivedAt: int)

  /** The key of the unique index on the history table. */
  datatype HistoryKey = HistoryKey(driverId: DriverId, recordedAt: int)

  function Key(s: Sample): HistoryKey { HistoryKey(s.driverId, s.recordedAt) }

  datatype Tables = Tables(history: map<HistoryKey, Sample>, latest: map<DriverId, Sample>)

  const EMPTY_TABLES := Tables(map[], map[])

  /** A stored sample gives way to one recorded at the same time or later. */
  function Guarded(current: map<DriverId, Sample>, s: Sample): map<DriverId, Sample> {
    if s.driverId in current && current[s.driverId].recordedAt > s.recordedAt then current
    else current[s.driverId := s]
  }

  function Appended(t: Tables, s: Sample): Tables {
    Tables(if Key(s) in t.history then t.history else t.history[Key(s) := s], Guarded(t.latest, s))
  }

  /** The tables after the samples were appended in this order. */
  function After(samples: seq<Sample>): Tables {
    if samples == [] then EMPTY_TABLES
    else Appended(After(samples[..|samples| - 1]), samples[|samples| - 1])
  }

  class LocationHistoryRepository {
    var history: map<HistoryKey, Sample>
    var latest: map<DriverId, Sample>

    ghost function View(): Tables
      reads this
    {
      Tables(history, latest)
    }

    constructor ()
      ensures View() == EMPTY_TABLES
    {
      history, latest := map[], map[];
    }

    method Append(location: Sample)
      modifies this
      ensures View() == Appended(old(View()), location)
    {
      if Key(location) !in history {
        history := history[Key(location) := location];
      }
      if location.driverId !in latest || latest[location.driverId].recordedAt <= location.recordedAt {
        latest := latest[location.driverId := location];
      }
    }

    method GetLatest(driverId: DriverId) returns (r: Option<Sample>)
      ensures r == if driverId in latest then Some(latest[driverId]) else None
    {
      r := if driverId in latest then Some(latest[driverId]) else None;
    }
  }

  // ----- convergence of the tables -----

  /** Samples of one driver with the same time carry the same data. */
  ghost predicate Consistent(samples: seq<Sample>) {
    forall a, b :: a in samples && b in samples && Key(a) == Key(b) ==> a == b
  }

  ghost predicate SameSamples(xs: seq<Sample>, ys: seq<Sample>) {
    forall s :: s in xs <==> s in ys
  }

  /** One history row for each recorded time, holding that sample. */
  ghost predicate HistoryOf(history: map<HistoryKey, Sample>, samples: seq<Sample>) {
    && (forall s :: s in samples ==> Key(s) in history && history[Key(s)] == s)
    && (forall k :: k in history ==> history[k] in samples && Key(history[k]) == k)
  }

  /** One latest row for each driver, holding a newest sample of it. */
  ghost predicate LatestOf(latest: map<DriverId, Sample>, samples: seq<Sample>) {
    && (forall s :: s in samples ==> s.driverId in latest && s.recordedAt <= latest[s.driverId].recordedAt)
    && (forall d :: d in latest ==> latest[d] in samples && latest[d].driverId == d)
  }

  lemma {:induction false} AfterLatest(samples: seq<Sample>)
    ensures LatestOf(After(samples).latest, samples)
  {
    if samples != [] {
      assert samples == samples[..|samples| - 1] + [samples[|samples| - 1]];
      AfterLatest(samples[..|samples| - 1]);
    }
  }

  lemma {:induction false} AfterHistory(samples: seq<Sample>)
    requires Consistent(samples)
    ensures HistoryOf(After(samples).history, samples)
  {
    if samples != [] {
      var rest, s := samples[..|samples| - 1], samples[|samples| - 1];
      assert samples == rest + [s];
      AfterHistory(rest);
      var before := After(rest).history;
      assert Key(s) in before ==> before[Key(s)] == s;
    }
  }

  lemma HistoryUnique(h: map<HistoryKey, Sample>, g: map<HistoryKey, Sample>, xs: seq<Sample>, ys: seq<Sample>)
    requires SameSamples(xs, ys) && HistoryOf(h, xs) && HistoryOf(g, ys)
    ensures h == g
  {
    assert forall k :: k in h ==> h[k] in ys && k in g && g[k] == h[k];
    assert forall k :: k in g ==> g[k] in xs && k in h;
  }

  lemma LatestUnique(l: map<DriverId, Sample>, m: map<DriverId, Sample>, xs: seq<Sample>, ys: seq<Sample>)
    requires Consistent(xs) && SameSamples(xs, ys) && LatestOf(l, xs) && LatestOf(m, ys)
    ensures l == m
  {
    assert forall d :: d in l ==> l[d] in ys && d in m;
    assert forall d :: d in m ==> m[d] in xs && d in l;
    forall d | d in l
      ensures l[d] == m[d]
    {
      assert Key(l[d]) == Key(m[d]);
    }
  }

  /** Repetition and reordering do not matter when samples with equal times carry equal data. */
  lemma Converge(xs: seq<Sample>, ys: seq<Sample>)
    requires Consistent(xs) && SameSamples(xs, ys)
    ensures After(xs) == After(ys)
  {
    AfterHistory(xs);
    AfterHistory(ys);
    HistoryUnique(After(xs).history, After(ys).history, xs, ys);
    AfterLatest(xs);
    AfterLatest(ys);
    LatestUnique(After(xs).latest, After(ys).latest, xs, ys);
  }

  lemma {:induction false} FirstRowStays(samples: seq<Sample>, n: nat)
    requires 0 < n <= |samples|
    ensures Key(samples[0]) in After(samples[..n]).history
    ensures After(samples[..n]).history[Key(samples[0])] == samples[0]
  {
    assert samples[..n][..n - 1] == samples[..n - 1];
    if n == 1 {
      assert After(samples[..0]) == EMPTY_TABLES;
    } else {
      FirstRowStays(samples, n - 1);
    }
  }

  /** And only then: two samples that share a key but differ leave different tables in different orders. */
  lemma Diverge(xs: seq<Sample>, a: Sample, b: Sample)
    requires a in xs && b in xs && Key(a) == Key(b) && a != b
    ensures SameSamples(xs, [a] + xs) && SameSamples(xs, [b] + xs)
    ensures After([a] + xs) != After([b] + xs)
  {
    var ys, zs := [a] + xs, [b] + xs;
    FirstRowStays(ys, |ys|);
    FirstRowStays(zs, |zs|);
    assert ys[..|ys|] == ys && zs[..|zs|] == zs;
  }

  /** Every order and repetition of the samples gives the same tables exactly when they are consistent. */
  lemma ConvergesExactlyWhenConsistent(xs: seq<Sample>)
    ensures Consistent(xs) <==>
            forall ys, zs :: SameSamples(xs, ys) && SameSamples(xs, zs) ==> After(ys) == After(zs)
  {
    if Consistent(xs) {
      forall ys, zs | SameSamples(xs, ys) && SameSamples(xs, zs)
        ensures After(ys) == After(zs)
      {
        Converge(xs, ys);
        Converge(xs, zs);
      }
    } else {
      var a, b :| a in xs && b in xs && Key(a) == Key(b) && a != b;
      Diverge(xs, a, b);
    }
  }

  /** For any samples whatever: the latest row carries the newest time in the driver's history. */
  lemma {:induction false} LatestIsNewest(samples: seq<Sample>)
    ensures
      var t := After(samples);
      && (forall k :: k in t.history ==> k.driverId in t.latest && k.recordedAt <= t.latest[k.driverId].recordedAt)
      && (forall d :: d in t.latest ==> t.latest[d].driverId == d && Key(t.latest[d]) in t.history)
  {
    if samples != [] {
      LatestIsNewest(samples[..|samples| - 1]);
    }
  }

  predicate FirstFor(samples: seq<Sample>, k: HistoryKey, i: nat)
    requires i < |samples|
  {
    Key(samples[i]) == k && forall j :: 0 <= j < i ==> Key(samples[j]) != k
  }

  /** For any samples whatever: a history row is the first sample that arrived for its driver and time. */
  lemma {:induction false} HistoryIsFirst(samples: seq<Sample>, k: HistoryKey)
    ensures k in After(samples).history <==> exists i :: 0 <= i < |samples| && Key(samples[i]) == k
    ensures forall i :: 0 <= i < |samples| && FirstFor(samples, k, i) ==>
              k in After(samples).history && After(samples).history[k] == samples[i]
  {
    if samples != [] {
      var rest := samples[..|samples| - 1];
      HistoryIsFirst(rest, k);
      assert forall i :: 0 <= i < |rest| ==>
               rest[i] == samples[i] && (FirstFor(samples, k, i) <==> FirstFor(rest, k, i));
    }
  }

  /** Sample i is the driver's newest, and of those recorded at the same time the last to arrive. */
  predicate LastNewest(samples: seq<Sample>, d: DriverId, i: nat)
    requires i < |samples|
  {
    && samples[i].driverId == d
    && forall j :: 0 <= j < |samples| && samples[j].driverId == d ==>
         samples[j].recordedAt < samples[i].recordedAt || (samples[j].recordedAt == samples[i].recordedAt && j <= i)
  }

  /** For any samples whatever: the latest row is the driver's newest sample, of equally new ones the last to arrive. */
  lemma {:induction false} LatestIsLast(samples: seq<Sample>, d: DriverId) returns (i: nat)
    requires exists s :: s in samples && s.driverId == d
    ensures i < |samples| && LastNewest(samples, d, i)
    ensures d in After(samples).latest && After(samples).latest[d] == samples[i]
  {
    var rest, last := samples[..|samples| - 1], samples[|samples| - 1];
    assert samples == rest + [last];
    if s :| s in rest && s.driverId == d {
      i := LatestIsLast(rest, d);
      if last.driverId == d && last.recordedAt >= rest[i].recordedAt {
        i := |samples| - 1;
      }
    } else {
      i := |samples| - 1;
      LatestIsKnown(rest, d);
    }
  }

  lemma {:induction false} LatestIsKnown(samples: seq<Sample>, d: DriverId)
    ensures d in After(samples).latest ==> exists s :: s in samples && s.driverId == d
  {
    if samples != [] {
      var rest, last := samples[..|samples| - 1], samples[|samples| - 1];
      assert samples == rest + [last];
      LatestIsKnown(rest, d);
    }
  }

  // ----- the live store -----

  datatype GeoPoint = GeoPoint(longitude: real, latitude: real)

  datatype Nearby = Nearby(location: Sample, distanceKm: real, ageSeconds: int)

  datatype NearbyQuery = NearbyQuery(limit: nat, candidates: Option<set<DriverId>>, maxAgeSeconds: Option<int>)

  function PointOf(s: Sample): GeoPoint { GeoPoint(s.longitude, s.latitude) }

  /** The whole seconds since the sample was received; never negative. */
  function AgeSeconds(s: Sample, now: int): int {
    var age := (now - s.receivedAt) / 1000;
    if age < 0 then 0 else age
  }

  /** The age is the number of whole seconds that have passed since the sample was received, or none if it is ahead. */
  lemma AgeMeans(s: Sample, now: int)
    ensures AgeSeconds(s, now) >= 0
    ensures now >= s.receivedAt ==>
              1000 * AgeSeconds(s, now) <= now - s.receivedAt < 1000 * (AgeSeconds(s, now) + 1)
    ensures now < s.receivedAt ==> AgeSeconds(s, now) == 0
  {
  }

  /** Each driver's stored position in the index is that of its current sample. */
  ghost predicate InStep(geo: map<DriverId, GeoPoint>, meta: map<DriverId, Sample>) {
    && geo.Keys == meta.Keys
    && forall d :: d in meta ==> geo[d].longitude == meta[d].longitude && geo[d].latitude == meta[d].latitude
  }

  class LiveLocationStore {
    var geo: map<DriverId, GeoPoint>
    var meta: map<DriverId, Sample>
    const ttlSeconds: int

    constructor (ttlSeconds: int)
      ensures geo == map[] && meta == map[] && this.ttlSeconds == ttlSeconds
    {
      geo, meta := map[], map[];
      this.ttlSeconds := ttlSeconds;
    }

    /** Atomic compare-and-set of the current sample; false when a newer one is already there. */
    method Upsert(location: Sample) returns (accepted: bool)
      modifies this
      ensures meta == Guarded(old(meta), location)
      ensures old(InStep(geo, meta)) ==> InStep(geo, meta)
      ensures accepted <==> location.driverId in meta && meta[location.driverId] == location
                            && !(location.driverId in old(meta)
                                 && old(meta)[location.driverId].recordedAt > location.recordedAt)
      ensures !accepted ==> geo == old(geo) && meta == old(meta)
    {
      if location.driverId in meta && meta[location.driverId].recordedAt > location.recordedAt {
        return false;
      }
      geo := geo[location.driverId := PointOf(location)];
      meta := meta[location.driverId := location];
      accepted := true;
    }

    /** The entry `FindNearby` makes of one member of the radius search, if it keeps it. */
    function Kept(query: NearbyQuery, now: int, driverId: DriverId, distance: real): Option<Nearby>
      reads this
    {
      var maxAge := if query.maxAgeSeconds.Some? then query.maxAgeSeconds.value else ttlSeconds;
      if query.candidates.Some? && driverId !in query.candidates.value then None
      else if driverId !in meta then None
      else if AgeSeconds(meta[driverId], now) > maxAge then None
      else Some(Nearby(meta[driverId], ToFixed(distance, 1000), AgeSeconds(meta[driverId], now)))
    }

    function KeptOf(query: NearbyQuery, now: int, raw: seq<(DriverId, real)>): seq<Nearby>
      reads this
    {
      if raw == [] then []
      else
        var rest := KeptOf(query, now, raw[..|raw| - 1]);
        var last := Kept(query, now, raw[|raw| - 1].0, raw[|raw| - 1].1);
        if last.Some? then rest + [last.value] else rest
    }

    /**
     * Filters the members of the radius search, nearest first. The result is the kept members up to
     * the limit; because the limit is checked after a member is added, a limit of 0 yields one.
     */
    method FindNearby(query: NearbyQuery, now: int, raw: seq<(DriverId, real)>) returns (results: seq<Nearby>)
      ensures var kept := KeptOf(query, now, raw);
              var most := if query.limit == 0 then 1 else query.limit;
              results == if |kept| <= most then kept else kept[..most]
    {
      results := [];
      var maxAge := if query.maxAgeSeconds.Some? then query.maxAgeSeconds.value else ttlSeconds;
      var k := 0;
      while k < |raw|
        invariant k <= |raw|
        invariant results == KeptOf(query, now, raw[..k])
        invariant results == [] || |results| < query.limit
      {
        var (driverId, distance) := raw[k];
        assert raw[..k + 1][..k] == raw[..k];
        k := k + 1;
        if query.candidates.Some? && driverId !in query.candidates.value { continue; }
        if driverId !in meta { continue; }
        var location := meta[driverId];
        var ageSeconds := AgeSeconds(location, now);
        if ageSeconds > maxAge { continue; }
        results := results + [Nearby(location, ToFixed(distance, 1000), ageSeconds)];
        if |results| >= query.limit {
          KeptPrefix(query, now, raw, k);
          return;
        }
      }
      assert raw[..|raw|] == raw;
    }

    lemma {:induction false} KeptPrefix(query: NearbyQuery, now: int, raw: seq<(DriverId, real)>, k: nat)
      requires k <= |raw|
      ensures |KeptOf(query, now, raw[..k])| <= |KeptOf(query, now, raw)|
      ensures KeptOf(query, now, raw[..k]) == KeptOf(query, now, raw)[..|KeptOf(query, now, raw[..k])|]
    {
      if k == |raw| {
        assert raw[..k] == raw;
      } else {
        KeptPrefix(query, now, raw[..|raw| - 1], k);
        assert raw[..|raw| - 1][..k] == raw[..k];
      }
    }

    /** A member of the search is kept exactly if it is allowed, has a live sample, and that is fresh. */
    predicate Wanted(query: NearbyQuery, now: int, driverId: DriverId)
      reads this
    {
      && (query.candidates.Some? ==> driverId in query.candidates.value)
      && driverId in meta
      && AgeSeconds(meta[driverId],
                    now) <= (if query.maxAgeSeconds.Some? then query.maxAgeSeconds.value else ttlSeconds)
    }

    /** The places in the search at which a wanted member stands. */
    function WantedAt(query: NearbyQuery, now: int, raw: seq<(DriverId, real)>): seq<nat>
      reads this
    {
      if raw == [] then []
      else
        WantedAt(query, now, raw[..|raw| - 1])
        + if Wanted(query, now, raw[|raw| - 1].0) then [|raw| - 1] else []
    }

    lemma {:induction false} WantedAtExactly(query: NearbyQuery, now: int, raw: seq<(DriverId, real)>, j: nat)
      ensures j in WantedAt(query, now, raw) <==> j < |raw| && Wanted(query, now, raw[j].0)
    {
      if raw != [] {
        WantedAtExactly(query, now, raw[..|raw| - 1], j);
      }
    }

    /**
     * Every wanted member is kept, in the order of the search, with its sample, its age and its distance to the metre.
     */
    lemma {:induction false} KeptInOrder(query: NearbyQuery, now: int, raw: seq<(DriverId, real)>)
      ensures
        var at, kept := WantedAt(query, now, raw), KeptOf(query, now, raw);
        && |kept| == |at|
        && (forall i :: 0 <= i < |at| ==> at[i] < |raw| && raw[at[i]].0 in meta)
        && (forall i :: 0 <= i < |at| ==>
              && kept[i].location == meta[raw[at[i]].0]
              && kept[i].ageSeconds == AgeSeconds(kept[i].location, now)
              && -0.0005 <= kept[i].distanceKm - raw[at[i]].1 <= 0.0005)
        && (forall i, j :: 0 <= i < j < |at| ==> at[i] < at[j])
    {
      if raw != [] {
        KeptInOrder(query, now, raw[..|raw| - 1]);
        var distance := raw[|raw| - 1].1;
        ToFixedError(distance, 1000);
        assert Times(ToFixed(distance, 1000) - distance, 1000.0) == (ToFixed(distance, 1000) - distance) * 1000.0;
      }
    }

    /** What is kept: a live, fresh, allowed driver for each entry. */
    lemma {:induction false} KeptSound(query: NearbyQuery, now: int, raw: seq<(DriverId, real)>)
      requires forall d :: d in meta ==> meta[d].driverId == d
      ensures forall e :: e in KeptOf(query, now, raw) ==>
                && e.location.driverId in meta && meta[e.location.driverId] == e.location
                && (query.candidates.Some? ==> e.location.driverId in query.candidates.value)
                && 0 <= e.ageSeconds <= (if query.maxAgeSeconds.Some? then query.maxAgeSeconds.value else ttlSeconds)
    {
      if raw != [] {
        KeptSound(query, now, raw[..|raw| - 1]);
      }
    }

    /** A nearest-first search stays nearest first after filtering and rounding. */
    lemma {:induction false} KeptSorted(query: NearbyQuery, now: int, raw: seq<(DriverId, real)>)
      requires forall i, j :: 0 <= i < j < |raw| ==> raw[i].1 <= raw[j].1
      ensures Ascending(KeptOf(query, now, raw))
      ensures raw != [] ==> NoFarther(KeptOf(query, now, raw), ToFixed(raw[|raw| - 1].1, 1000))
    {
      if raw != [] {
        var rest, last := raw[..|raw| - 1], ToFixed(raw[|raw| - 1].1, 1000);
        KeptSorted(query, now, rest);
        if rest != [] {
          ToFixedMonotone(rest[|rest| - 1].1, raw[|raw| - 1].1, 1000);
        }
        assert NoFarther(KeptOf(query, now, rest), last);
      }
    }
  }

  ghost predicate Ascending(kept: seq<Nearby>) {
    forall i, j :: 0 <= i < j < |kept| ==> kept[i].distanceKm <= kept[j].distanceKm
  }

  ghost predicate NoFarther(kept: seq<Nearby>, bound: real) {
    forall i :: 0 <= i < |kept| ==> kept[i].distanceKm <= bound
  }

  // ----- agreement of the two stores -----

  /** The live samples after the samples were upserted in this order, none of them expiring. */
  function Live(samples: seq<Sample>): map<DriverId, Sample> {
    if samples == [] then map[] else Guarded(Live(samples[..|samples| - 1]), samples[|samples| - 1])
  }

  lemma {:induction false} LiveIsLatest(samples: seq<Sample>)
    ensures Live(samples) == After(samples).latest
  {
    if samples != [] {
      LiveIsLatest(samples[..|samples| - 1]);
    }
  }

  /** Fed the same consistent samples in any orders, the live store and the tables agree on every driver. */
  lemma StoresAgree(live: seq<Sample>, durable: seq<Sample>)
    requires Consistent(live) && SameSamples(live, durable)
    ensures Live(live) == After(durable).latest
    ensures forall d :: d in Live(live) ==>
              var s := Live(live)[d];
              Key(s) in After(durable).history && After(durable).history[Key(s)] == s
              && forall x :: x in live && x.driverId == d ==> x.recordedAt <= s.recordedAt
  {
    LiveIsLatest(live);
    Converge(live, durable);
    AfterHistory(live);
    AfterLatest(live);
  }
}
