/**
 * The correlation and aggregation done by the `launches` command
 * (cmd/launches.go): the cost total, the success display, the crew line and
 * the asteroid tally. Printing is not modelled; each piece returns what it
 * would print.
 */
module Launches {
  import opened Wrappers
  import opened Model

  // ---------------------------------------------------------------- costs

  /** What one launch contributes: its rocket's cost per launch, or 0 for an unknown rocket. */
  function CostOf(launch: Launch, rockets: map<string, Rocket>): int {
    if launch.rocketId in rockets then rockets[launch.rocketId].costPerLaunch else 0
  }

  /** The sequential sum of the per-launch costs. */
  function TotalCost(launches: seq<Launch>, rockets: map<string, Rocket>): int
    decreases |launches|
  {
    if |launches| == 0 then 0
    else TotalCost(launches[..|launches| - 1], rockets) + CostOf(launches[|launches| - 1], rockets)
  }

  lemma {:induction false} TotalCostAppend(a: seq<Launch>, b: seq<Launch>, rockets: map<string, Rocket>)
    ensures TotalCost(a + b, rockets) == TotalCost(a, rockets) + TotalCost(b, rockets)
    decreases |b|
  {
    if |b| == 0 {
      assert a + b == a;
    } else {
      var b' := b[..|b| - 1];
      assert (a + b)[..|a + b| - 1] == a + b';
      assert (a + b)[|a + b| - 1] == b[|b| - 1];
      TotalCostAppend(a, b', rockets);
    }
  }

  /** The total does not depend on the order in which the per-launch costs arrive. */
  lemma {:induction false} TotalCostPermutation(a: seq<Launch>, b: seq<Launch>, rockets: map<string, Rocket>)
    requires multiset(a) == multiset(b)
    ensures TotalCost(a, rockets) == TotalCost(b, rockets)
    decreases |a|
  {
    if |a| > 0 {
      var x := a[|a| - 1];
      var a' := a[..|a| - 1];
      assert a == a' + [x];
      assert x in multiset(b);
      var i :| 0 <= i < |b| && b[i] == x;
      assert b == b[..i] + [x] + b[i + 1..];
      var b' := b[..i] + b[i + 1..];
      assert multiset(a) == multiset(a') + multiset{x};
      assert multiset(b) == multiset(b[..i]) + multiset{x} + multiset(b[i + 1..]);
      assert multiset(b') == multiset(b[..i]) + multiset(b[i + 1..]);
      assert multiset(a') == multiset(a) - multiset{x};
      assert multiset(b') == multiset(b) - multiset{x};
      assert multiset(a') == multiset(b');
      TotalCostPermutation(a', b', rockets);
      TotalCostAppend(b[..i] + [x], b[i + 1..], rockets);
      TotalCostAppend(b[..i], [x], rockets);
      TotalCostAppend(b[..i], b[i + 1..], rockets);
      TotalCostAppend(a', [x], rockets);
    }
  }

  /** Launches none of whose rockets are known cost nothing; in particular no launches cost nothing. */
  lemma {:induction false} TotalCostOfUnknownRockets(launches: seq<Launch>, rockets: map<string, Rocket>)
    requires forall i :: 0 <= i < |launches| ==> launches[i].rocketId !in rockets
    ensures TotalCost(launches, rockets) == 0
    decreases |launches|
  {
    if |launches| > 0 {
      TotalCostOfUnknownRockets(launches[..|launches| - 1], rockets);
    }
  }

  /**
   * `getCosts`: one worker per launch sends the launch's cost on a channel
   * and the costs are summed as they arrive. `arrivals` is the order in which
   * the workers finished, any permutation of `launches`. The error is always
   * nil.
   */
  method GetCosts(launches: seq<Launch>, rockets: map<string, Rocket>, arrivals: seq<Launch>)
    returns (totalCost: int, err: Option<string>)
    requires multiset(arrivals) == multiset(launches)
    ensures totalCost == TotalCost(launches, rockets)
    ensures err == None
  {
    totalCost := 0;
    for n := 0 to |arrivals|
      invariant totalCost == TotalCost(arrivals[..n], rockets)
    {
      var launch := arrivals[n];
      var cost := if launch.rocketId in rockets then rockets[launch.rocketId].costPerLaunch else 0;
      assert arrivals[..n + 1][..n] == arrivals[..n];
      totalCost := totalCost + cost;
    }
    assert arrivals[..|arrivals|] == arrivals;
    TotalCostPermutation(arrivals, launches, rockets);
    err := None;
  }

  // ---------------------------------------------------------------- success display

  /** The three verdicts a launch is displayed with. */
  datatype LaunchStatus = Unknown | Succeeded | Failed

  /** The status line: nil is Unknown, true is Success, false is Failed. */
  function StatusOf(success: Option<bool>): (s: LaunchStatus)
    ensures s == Unknown <==> success == None
    ensures s == Succeeded <==> success == Some(true)
    ensures s == Failed <==> success == Some(false)
  {
    match success
    case None => Unknown
    case Some(ok) => if ok then Succeeded else Failed
  }

  /** The rocket name line: a rocket missing from the map shows Go's zero value, the empty name. */
  function RocketName(rockets: map<string, Rocket>, rocketId: string): (name: string)
    ensures rocketId in rockets ==> name == rockets[rocketId].name
    ensures rocketId !in rockets ==> name == ""
  {
    if rocketId in rockets then rockets[rocketId].name else ""
  }

  // ---------------------------------------------------------------- crew names

  /** The names of the crew ids found in `crewMap`, in order; unknown ids are skipped. */
  function CrewNames(crewIds: seq<string>, crewMap: map<string, Crew>): seq<string>
    decreases |crewIds|
  {
    if |crewIds| == 0 then []
    else
      var id := crewIds[|crewIds| - 1];
      CrewNames(crewIds[..|crewIds| - 1], crewMap) + (if id in crewMap then [crewMap[id].name] else [])
  }

  /** Resolution is compositional: the names for `a + b` are those for `a` followed by those for `b`. */
  lemma {:induction false} CrewNamesAppend(a: seq<string>, b: seq<string>, crewMap: map<string, Crew>)
    ensures CrewNames(a + b, crewMap) == CrewNames(a, crewMap) + CrewNames(b, crewMap)
    decreases |b|
  {
    if |b| == 0 {
      assert a + b == a;
    } else {
      var b' := b[..|b| - 1];
      assert (a + b)[..|a + b| - 1] == a + b';
      assert (a + b)[|a + b| - 1] == b[|b| - 1];
      CrewNamesAppend(a, b', crewMap);
    }
  }

  /**
   * Never more names than ids; exactly one name per id, in order, when every
   * id is known; none when no id is known.
   */
  lemma {:induction false} CrewNamesBounds(crewIds: seq<string>, crewMap: map<string, Crew>)
    ensures |CrewNames(crewIds, crewMap)| <= |crewIds|
    ensures (forall i :: 0 <= i < |crewIds| ==> crewIds[i] in crewMap) ==>
      |CrewNames(crewIds, crewMap)| == |crewIds|
      && forall i :: 0 <= i < |crewIds| ==> CrewNames(crewIds, crewMap)[i] == crewMap[crewIds[i]].name
    ensures (forall i :: 0 <= i < |crewIds| ==> crewIds[i] !in crewMap) ==> CrewNames(crewIds, crewMap) == []
    decreases |crewIds|
  {
    if |crewIds| > 0 {
      CrewNamesBounds(crewIds[..|crewIds| - 1], crewMap);
    }
  }

  /**
   * The crew line of one launch: shown only when the launch has crew and the
   * crew map was fetched, listing the names resolved in launch order.
   */
  method CrewLine(launch: Launch, crewMap: Option<map<string, Crew>>) returns (line: Option<seq<string>>)
    ensures line.Some? <==> |launch.crew| > 0 && crewMap.Some?
    ensures line.Some? ==> line.value == CrewNames(launch.crew, crewMap.value)
  {
    if |launch.crew| == 0 || crewMap.None? {
      return None;
    }
    var crewNames: seq<string> := [];
    for n := 0 to |launch.crew|
      invariant crewNames == CrewNames(launch.crew[..n], crewMap.value)
    {
      var crewId := launch.crew[n];
      assert launch.crew[..n + 1][..n] == launch.crew[..n];
      if crewId in crewMap.value {
        crewNames := crewNames + [crewMap.value[crewId].name];
      }
    }
    assert launch.crew[..|launch.crew|] == launch.crew;
    line := Some(crewNames);
  }

  // ---------------------------------------------------------------- asteroid tally

  /** How many asteroids of one date bucket have the given hazard flag. */
  function CountIn(bucket: seq<Asteroid>, hazardous: bool): nat
    decreases |bucket|
  {
    if |bucket| == 0 then 0
    else CountIn(bucket[..|bucket| - 1], hazardous) + (if bucket[|bucket| - 1].hazardous == hazardous then 1 else 0)
  }

  function HazardousIn(bucket: seq<Asteroid>): nat { CountIn(bucket, true) }
  function HarmlessIn(bucket: seq<Asteroid>): nat { CountIn(bucket, false) }
  function SizeOf(bucket: seq<Asteroid>): nat { |bucket| }

  /** A per-bucket quantity summed over all date buckets, in no particular order. */
  ghost function SumOver(buckets: map<string, seq<Asteroid>>, f: seq<Asteroid> -> nat): nat
    decreases |buckets|
  {
    if |buckets| == 0 then 0
    else
      var d := AnyDate(buckets);
      assert (buckets - {d}).Keys == buckets.Keys - {d};
      f(buckets[d]) + SumOver(buckets - {d}, f)
  }

  /** Some date of a non-empty feed; which one is left open, as Go's map order is. */
  ghost function AnyDate(buckets: map<string, seq<Asteroid>>): (d: string)
    requires |buckets| > 0
    ensures d in buckets
  {
    assert buckets.Keys != {} by { assert |buckets.Keys| == |buckets|; }
    var d :| d in buckets; d
  }

  /** The sum does not depend on which bucket is taken first. */
  lemma {:induction false} SumOverRemove(buckets: map<string, seq<Asteroid>>, f: seq<Asteroid> -> nat, d: string)
    requires d in buckets
    ensures SumOver(buckets, f) == f(buckets[d]) + SumOver(buckets - {d}, f)
    decreases |buckets|
  {
    var e := AnyDate(buckets);
    if e != d {
      var rest := buckets - {e};
      assert |rest| < |buckets| by { assert rest.Keys == buckets.Keys - {e}; }
      SumOverRemove(rest, f, d);
      var rest' := buckets - {d};
      assert |rest'| < |buckets| by { assert rest'.Keys == buckets.Keys - {d}; }
      SumOverRemove(rest', f, e);
      assert rest - {d} == rest' - {e};
    }
  }

  /** Every asteroid of a bucket is either hazardous or not. */
  lemma {:induction false} CountInSplits(bucket: seq<Asteroid>)
    ensures CountIn(bucket, true) + CountIn(bucket, false) == |bucket|
    decreases |bucket|
  {
    if |bucket| > 0 {
      CountInSplits(bucket[..|bucket| - 1]);
    }
  }

  /** Over the whole feed, hazardous plus non-hazardous is the number of asteroids. */
  lemma {:induction false} TallySplits(buckets: map<string, seq<Asteroid>>)
    ensures SumOver(buckets, HazardousIn) + SumOver(buckets, HarmlessIn) == SumOver(buckets, SizeOf)
    decreases |buckets|
  {
    if |buckets| > 0 {
      var d :| d in buckets;
      SumOverRemove(buckets, HazardousIn, d);
      SumOverRemove(buckets, HarmlessIn, d);
      SumOverRemove(buckets, SizeOf, d);
      CountInSplits(buckets[d]);
      var rest := buckets - {d};
      assert |rest| < |buckets| by { assert rest.Keys == buckets.Keys - {d}; }
      TallySplits(rest);
    }
  }

  /**
   * The asteroid tally: every asteroid of every date bucket, visited in Go's
   * unspecified map order, bumps exactly one of the two counters.
   */
  method TallyAsteroids(feed: NasaAsteroid) returns (hazardous: nat, nonHazardous: nat)
    ensures hazardous == SumOver(feed.nearEarthObjects, HazardousIn)
    ensures nonHazardous == SumOver(feed.nearEarthObjects, HarmlessIn)
    ensures hazardous + nonHazardous == SumOver(feed.nearEarthObjects, SizeOf)
  {
    hazardous, nonHazardous := 0, 0;
    var remaining := feed.nearEarthObjects;
    while remaining != map[]
      invariant hazardous + SumOver(remaining, HazardousIn) == SumOver(feed.nearEarthObjects, HazardousIn)
      invariant nonHazardous + SumOver(remaining, HarmlessIn) == SumOver(feed.nearEarthObjects, HarmlessIn)
      decreases |remaining|
    {
      var date :| date in remaining;
      var asteroids := remaining[date];
      ghost var h0, n0 := hazardous, nonHazardous;
      for n := 0 to |asteroids|
        invariant hazardous == h0 + CountIn(asteroids[..n], true)
        invariant nonHazardous == n0 + CountIn(asteroids[..n], false)
      {
        assert asteroids[..n + 1][..n] == asteroids[..n];
        if asteroids[n].hazardous {
          hazardous := hazardous + 1;
        } else {
          nonHazardous := nonHazardous + 1;
        }
      }
      assert asteroids[..|asteroids|] == asteroids;
      SumOverRemove(remaining, HazardousIn, date);
      SumOverRemove(remaining, HarmlessIn, date);
      var rest := remaining - {date};
      assert |rest| < |remaining| by { assert rest.Keys == remaining.Keys - {date}; }
      remaining := rest;
    }
    assert remaining == map[];
    TallySplits(feed.nearEarthObjects);
  }

  // ---------------------------------------------------------------- asteroid query

  /** `buildAsteroidsQueryParams`: a one-day window, the launch date (already formatted) as both ends. */
  function BuildAsteroidsQueryParams(date: string): (q: string)
    ensures |q| == 22 + 2 * |date|
    ensures q[..12] == "?start_date=" && q[12 + |date|..22 + |date|] == "&end_date="
    ensures q[12..12 + |date|] == date && q[|q| - |date|..] == date
  {
    "?start_date=" + date + "&end_date=" + date
  }
}
