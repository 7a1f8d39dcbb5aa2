/** Rolling five-minute candles into hourly ones: the bucket-and-sort routine
    the runner uses, and what it guarantees about the candles it produces. */
module Aggregate {
  import opened Basics
  import opened Contracts

  const HOUR: int := 3600000000
  const FULL_HOUR: nat := 12

  /** Start of the hour a timestamp falls in. */
  function HourOf(ts: int): int {
    ts - ts % HOUR
  }

  predicate Increasing(hs: seq<int>) {
    forall i, j :: 0 <= i < j < |hs| ==> hs[i] < hs[j]
  }

  /** Insert into an increasing sequence, once. */
  function InsertHour(hs: seq<int>, h: int): seq<int>
    decreases |hs|
  {
    if hs == [] then [h]
    else
      var k := |hs| - 1;
      if h > hs[k] then hs + [h]
      else if h == hs[k] then hs
      else InsertHour(hs[..k], h) + [hs[k]]
  }

  /** The distinct hours of some candles, in order. */
  function Hours(bars: seq<Bar>): seq<int>
    decreases |bars|
  {
    if bars == [] then []
    else InsertHour(Hours(bars[..|bars| - 1]), HourOf(bars[|bars| - 1].timestamp))
  }

  /** The candles of one hour, in their original order. */
  function Group(bars: seq<Bar>, h: int): seq<Bar>
    decreases |bars|
  {
    if bars == [] then []
    else
      var rest := Group(bars[..|bars| - 1], h);
      if HourOf(bars[|bars| - 1].timestamp) == h then rest + [bars[|bars| - 1]] else rest
  }

  function HighOf(group: seq<Bar>): real
    requires group != []
    decreases |group|
  {
    if |group| == 1 then group[0].high else Max(HighOf(group[..|group| - 1]), group[|group| - 1].high)
  }

  function LowOf(group: seq<Bar>): real
    requires group != []
    decreases |group|
  {
    if |group| == 1 then group[0].low else Min(LowOf(group[..|group| - 1]), group[|group| - 1].low)
  }

  function Volume(bars: seq<Bar>): real
    decreases |bars|
  {
    if bars == [] then 0.0 else Volume(bars[..|bars| - 1]) + bars[|bars| - 1].volume
  }

  /** One hourly candle from the candles of the hour. */
  function Rollup(h: int, group: seq<Bar>): Bar
    requires group != []
  {
    Bar(h, group[0].open, HighOf(group), LowOf(group), group[|group| - 1].close, Volume(group))
  }

  ghost predicate Inhabited(bars: seq<Bar>, hs: seq<int>) {
    forall h :: h in hs ==> Group(bars, h) != []
  }

  function RollAll(bars: seq<Bar>, hs: seq<int>): seq<Bar>
    requires Inhabited(bars, hs)
    decreases |hs|
  {
    if hs == [] then []
    else RollAll(bars, hs[..|hs| - 1]) + [Rollup(hs[|hs| - 1], Group(bars, hs[|hs| - 1]))]
  }

  /** Every hour rolled up, the trailing one included. */
  function KeepAll(bars: seq<Bar>): seq<Bar> {
    HoursFacts(bars);
    RollAll(bars, Hours(bars))
  }

  /** The hours that are kept: a trailing hour of fewer than twelve candles is
      not. */
  function KeptHours(bars: seq<Bar>): seq<int> {
    var hs := Hours(bars);
    if hs != [] && |Group(bars, hs[|hs| - 1])| < FULL_HOUR then hs[..|hs| - 1] else hs
  }

  function Hourly(bars: seq<Bar>): seq<Bar> {
    HoursFacts(bars);
    RollAll(bars, KeptHours(bars))
  }

  // ------------------------------------------------------------------- facts

  lemma {:induction false} InsertFacts(hs: seq<int>, h: int)
    requires Increasing(hs)
    ensures Increasing(InsertHour(hs, h))
    ensures forall x :: x in InsertHour(hs, h) <==> x in hs || x == h
    decreases |hs|
  {
    if hs != [] {
      var k := |hs| - 1;
      if h < hs[k] {
        InsertFacts(hs[..k], h);
        var r := InsertHour(hs[..k], h);
        assert forall x :: x in hs <==> x in hs[..k] || x == hs[k];
        forall i | 0 <= i < |r|
          ensures r[i] < hs[k]
        {
          assert r[i] in r;
        }
      }
    }
  }

  /** Hours are strictly increasing, and are those with at least one candle. */
  lemma {:induction false} HoursFacts(bars: seq<Bar>)
    ensures Increasing(Hours(bars))
    ensures forall h :: h in Hours(bars) <==> Group(bars, h) != []
    decreases |bars|
  {
    if bars != [] {
      var k := |bars| - 1;
      HoursFacts(bars[..k]);
      InsertFacts(Hours(bars[..k]), HourOf(bars[k].timestamp));
    }
  }

  lemma {:induction false} IncreasingUnique(a: seq<int>, b: seq<int>)
    requires Increasing(a) && Increasing(b)
    requires forall x :: x in a <==> x in b
    ensures a == b
    decreases |a|
  {
    if a == [] {
      assert forall i :: 0 <= i < |b| ==> b[i] in a;
    } else {
      var x := a[|a| - 1];
      assert x in b;
      var i :| 0 <= i < |b| && b[i] == x;
      var y := b[|b| - 1];
      assert y in a;
      assert y == x;
      var a', b' := a[..|a| - 1], b[..|b| - 1];
      forall z
        ensures z in a' <==> z in b'
      {
        assert z in a' <==> z in a && z != x;
        assert z in b' <==> z in b && z != x;
      }
      IncreasingUnique(a', b');
    }
  }

  /** sorted() of distinct keys. */
  method Sorted(keys: seq<int>) returns (hs: seq<int>)
    ensures Increasing(hs) && forall x :: x in hs <==> x in keys
  {
    hs := [];
    for i := 0 to |keys|
      invariant Increasing(hs)
      invariant forall x :: x in hs <==> x in keys[..i]
    {
      InsertFacts(hs, keys[i]);
      hs := InsertHour(hs, keys[i]);
      assert keys[..i + 1] == keys[..i] + [keys[i]];
    }
    assert keys[..|keys|] == keys;
  }

  /** Candles bucketed by hour, in arrival order within each hour; a dictionary
      remembers the order its keys were first seen in. */
  method Bucket(bars: seq<Bar>) returns (buckets: map<int, seq<Bar>>, keys: seq<int>)
    ensures forall h :: h in buckets <==> Group(bars, h) != []
    ensures forall h :: h in buckets ==> buckets[h] == Group(bars, h)
    ensures forall h :: h in keys <==> h in buckets
  {
    buckets, keys := map[], [];
    for i := 0 to |bars|
      invariant forall h :: h in buckets <==> Group(bars[..i], h) != []
      invariant forall h :: h in buckets ==> buckets[h] == Group(bars[..i], h)
      invariant forall h :: h in keys <==> h in buckets
    {
      assert bars[..i + 1][..i] == bars[..i];
      var hour := HourOf(bars[i].timestamp);
      if hour !in buckets {
        keys := keys + [hour];
      }
      buckets := buckets[hour := (if hour in buckets then buckets[hour] else []) + [bars[i]]];
    }
    assert bars[..|bars|] == bars;
  }

  lemma {:induction false} RollNext(bars: seq<Bar>, hs: seq<int>, i: nat)
    requires Inhabited(bars, hs) && i < |hs|
    ensures RollAll(bars, hs[..i + 1]) == RollAll(bars, hs[..i]) + [Rollup(hs[i], Group(bars, hs[i]))]
  {
    hide Rollup, Group;
    assert hs[..i + 1][..i] == hs[..i];
  }

  /** The roll-up loop over the sorted hours. */
  method RollKept(ghost bars: seq<Bar>, hours: seq<int>, buckets: map<int, seq<Bar>>) returns (aggregated: seq<Bar>)
    requires Inhabited(bars, hours) && hours == Hours(bars)
    requires forall i :: 0 <= i < |hours| ==> hours[i] in buckets && buckets[hours[i]] == Group(bars, hours[i])
    ensures aggregated == Hourly(bars)
  {
    hide Group, Rollup, Hours, RollAll, HourOf;
    aggregated := [];
    var kept := 0;
    assert RollAll(bars, hours[..0]) == [] by {
      RollNone(bars);
      assert hours[..0] == [];
    }
    for i := 0 to |hours|
      invariant kept == if i == |hours| then |KeptHours(bars)| else i
      invariant aggregated == RollAll(bars, hours[..kept])
    {
      var group := buckets[hours[i]];
      if i == |hours| - 1 && |group| < FULL_HOUR {
        continue;
      }
      RollNext(bars, hours, i);
      aggregated := aggregated + [Rollup(hours[i], group)];
      kept := i + 1;
    }
    assert hours[..kept] == KeptHours(bars);
  }

  lemma {:induction false} HourlyEmpty()
    ensures Hourly([]) == []
  {
  }

  lemma {:induction false} RollNone(bars: seq<Bar>)
    ensures RollAll(bars, []) == []
  {
  }

  method AggregateTo1h(bars: seq<Bar>) returns (aggregated: seq<Bar>)
    ensures aggregated == Hourly(bars)
  {
    if bars == [] {
      HourlyEmpty();
      return [];
    }
    var buckets, keys := Bucket(bars);
    var hours := Sorted(keys);
    HoursFacts(bars);
    IncreasingUnique(hours, Hours(bars));
    hide Group, Hours, Hourly, Increasing;
    aggregated := RollKept(bars, hours, buckets);
  }
}
