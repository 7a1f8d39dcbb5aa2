/** What rolling candles up preserves: order, the exact range of every hour,
    volume, well-formedness and the price unit; and, on time-ordered candles,
    its agreement with a one-pass fold and with splitting at an hour. */
module AggregateLaws {
  import opened Basics
  import opened Contracts
  import opened Aggregate
  import opened Indicators
  import opened IndicatorLaws
  import opened PriceUnit

  // ------------------------------------------------------------ exact candles

  lemma {:induction false} RollAllAt(bars: seq<Bar>, hs: seq<int>, i: nat)
    requires Inhabited(bars, hs) && i < |hs|
    ensures |RollAll(bars, hs)| == |hs|
    ensures RollAll(bars, hs)[i] == Rollup(hs[i], Group(bars, hs[i]))
    decreases |hs|
  {
    RollAllLength(bars, hs);
    if i < |hs| - 1 {
      RollAllAt(bars, hs[..|hs| - 1], i);
    } else {
      RollAllLength(bars, hs[..i]);
    }
  }

  lemma {:induction false} RollAllLength(bars: seq<Bar>, hs: seq<int>)
    requires Inhabited(bars, hs)
    ensures |RollAll(bars, hs)| == |hs|
    decreases |hs|
  {
    if hs != [] {
      RollAllLength(bars, hs[..|hs| - 1]);
    }
  }

  lemma {:induction false} RangeOfGroup(group: seq<Bar>)
    requires group != []
    ensures forall i :: 0 <= i < |group| ==> group[i].high <= HighOf(group) && LowOf(group) <= group[i].low
    ensures exists i :: 0 <= i < |group| && group[i].high == HighOf(group)
    ensures exists i :: 0 <= i < |group| && group[i].low == LowOf(group)
    decreases |group|
  {
    if |group| == 1 {
      assert group[0].high == HighOf(group) && group[0].low == LowOf(group);
    } else {
      var rest := group[..|group| - 1];
      assert group[|group| - 1].high <= HighOf(group);
      RangeOfGroup(rest);
      var i :| 0 <= i < |rest| && rest[i].high == HighOf(rest);
      var j :| 0 <= j < |rest| && rest[j].low == LowOf(rest);
      assert group[i].high == HighOf(rest) && group[j].low == LowOf(rest);
    }
  }

  /** A candle summarises a group: first open, last close, the attained highest
      high and lowest low, and the summed volume. */
  ghost predicate Summarises(bar: Bar, group: seq<Bar>) {
    && group != []
    && bar.open == group[0].open && bar.close == group[|group| - 1].close
    && (forall i :: 0 <= i < |group| ==> group[i].high <= bar.high && bar.low <= group[i].low)
    && (exists i :: 0 <= i < |group| && group[i].high == bar.high)
    && (exists i :: 0 <= i < |group| && group[i].low == bar.low)
    && bar.volume == Volume(group)
  }

  /** The hourly candles carry strictly increasing hour stamps, and each one
      summarises exactly the candles of its hour. */
  lemma {:induction false} HourlyExact(bars: seq<Bar>)
    ensures
      var out := Hourly(bars);
      && (forall i, j :: 0 <= i < j < |out| ==> out[i].timestamp < out[j].timestamp)
      && (forall i :: 0 <= i < |out| ==> Summarises(out[i], Group(bars, out[i].timestamp)))
  {
    HoursFacts(bars);
    var hs := KeptHours(bars);
    var out := Hourly(bars);
    RollAllLength(bars, hs);
    forall i | 0 <= i < |out|
      ensures out[i].timestamp == hs[i] && Summarises(out[i], Group(bars, hs[i]))
    {
      RollAllAt(bars, hs, i);
      RangeOfGroup(Group(bars, hs[i]));
    }
  }

  // ------------------------------------------------------------ which hours appear

  /** How many candles are stamped in [from, to). */
  function CountIn(bars: seq<Bar>, from: int, to: int): nat
    decreases |bars|
  {
    if bars == [] then 0
    else
      CountIn(bars[..|bars| - 1], from, to) + (if from <= bars[|bars| - 1].timestamp < to then 1 else 0)
  }

  lemma {:induction false} HourSpan(ts: int, h: int)
    ensures h % 3600000000 == 0 ==> (HourOf(ts) == h <==> h <= ts < h + 3600000000)
    ensures HourOf(ts) % 3600000000 == 0
  {
  }

  lemma {:induction false} GroupCounts(bars: seq<Bar>, h: int)
    requires h % 3600000000 == 0
    ensures |Group(bars, h)| == CountIn(bars, h, h + 3600000000)
    decreases |bars|
  {
    if bars != [] {
      GroupCounts(bars[..|bars| - 1], h);
      HourSpan(bars[|bars| - 1].timestamp, h);
      hide HourOf;
    }
  }

  lemma {:induction false} Stamps(bars: seq<Bar>, h: int)
    ensures (exists i :: 0 <= i < |Hourly(bars)| && Hourly(bars)[i].timestamp == h) <==> h in KeptHours(bars)
  {
    HoursFacts(bars);
    var hs, out := KeptHours(bars), Hourly(bars);
    RollAllLength(bars, hs);
    forall i | 0 <= i < |out| ensures out[i].timestamp == hs[i] {
      RollAllAt(bars, hs, i);
    }
    if h in hs {
      var i :| 0 <= i < |hs| && hs[i] == h;
      assert out[i].timestamp == h;
    }
  }

  lemma {:induction false} LaterHours(bars: seq<Bar>, h: int)
    requires h in Hours(bars)
    ensures h % 3600000000 == 0
    ensures h != Hours(bars)[|Hours(bars)| - 1]
       <==> exists i :: 0 <= i < |bars| && bars[i].timestamp >= h + 3600000000
  {
    HoursFacts(bars);
    var hs := Hours(bars);
    var last := hs[|hs| - 1];
    hide HourOf, Hours, Group;
    assert last in hs;
    GroupMember(bars, h);
    GroupMember(bars, last);
    var j :| 0 <= j < |bars| && HourOf(bars[j].timestamp) == h;
    var k :| 0 <= k < |bars| && HourOf(bars[k].timestamp) == last;
    HourSpan(bars[j].timestamp, h);
    HourSpan(bars[k].timestamp, last);
    if h != last {
      assert h < last;
      NextHour(h, last);
    }
    if i :| 0 <= i < |bars| && bars[i].timestamp >= h + 3600000000 {
      CandleGrouped(bars, i);
      HourSpan(bars[i].timestamp, HourOf(bars[i].timestamp));
      assert HourOf(bars[i].timestamp) in hs;
    }
  }

  lemma {:induction false} NextHour(h: int, later: int)
    requires h < later && h % 3600000000 == 0 && later % 3600000000 == 0
    ensures later >= h + 3600000000
  {
  }

  lemma {:induction false} CandleGrouped(bars: seq<Bar>, i: nat)
    requires i < |bars|
    ensures Group(bars, HourOf(bars[i].timestamp)) != []
    decreases |bars|
  {
    if i < |bars| - 1 {
      CandleGrouped(bars[..|bars| - 1], i);
    }
  }

  /** An hourly candle is stamped h exactly when h starts an hour with a candle
      in it that is full, or is followed by a later candle. */
  lemma {:induction false} HourlyKeepsIff(bars: seq<Bar>, h: int)
    ensures (exists i :: 0 <= i < |Hourly(bars)| && Hourly(bars)[i].timestamp == h)
       <==> h % 3600000000 == 0 && CountIn(bars, h, h + 3600000000) > 0 &&
              (CountIn(bars, h, h + 3600000000) >= 12
               || exists i :: 0 <= i < |bars| && bars[i].timestamp >= h + 3600000000)
  {
    Stamps(bars, h);
    HoursFacts(bars);
    KeptAre(bars, h);
    if h in Hours(bars) {
      LaterHours(bars, h);
    }
    if h % 3600000000 == 0 {
      GroupCounts(bars, h);
    }
    hide Hourly, Hours, Group, KeptHours, CountIn;
  }

  lemma {:induction false} KeptAre(bars: seq<Bar>, h: int)
    ensures h in KeptHours(bars)
       <==> h in Hours(bars) && (h != Hours(bars)[|Hours(bars)| - 1] || |Group(bars, h)| >= 12)
  {
    HoursFacts(bars);
    hide Hours, Group;
  }

  // ----------------------------------------------------------------- one pass

  function Single(b: Bar): Bar {
    Bar(HourOf(b.timestamp), b.open, b.high, b.low, b.close, b.volume)
  }

  function Absorb(hour: Bar, b: Bar): Bar {
    Bar(hour.timestamp, hour.open, Max(hour.high, b.high), Min(hour.low, b.low), b.close, hour.volume + b.volume)
  }

  /** Each candle either extends the hour in progress or starts a new one. */
  function OnePass(bars: seq<Bar>): seq<Bar>
    decreases |bars|
  {
    if bars == [] then []
    else
      var done, b := OnePass(bars[..|bars| - 1]), bars[|bars| - 1];
      if done != [] && done[|done| - 1].timestamp == HourOf(b.timestamp)
      then done[..|done| - 1] + [Absorb(done[|done| - 1], b)]
      else done + [Single(b)]
  }

  predicate Ordered(bars: seq<Bar>) {
    forall i, j :: 0 <= i < j < |bars| ==> bars[i].timestamp <= bars[j].timestamp
  }

  lemma {:induction false} HourMonotone(a: int, b: int)
    requires a <= b
    ensures HourOf(a) <= HourOf(b)
  {
  }

  /** Whatever hour has a candle has one at some index. */
  lemma {:induction false} GroupMember(bars: seq<Bar>, h: int)
    requires Group(bars, h) != []
    ensures exists i :: 0 <= i < |bars| && HourOf(bars[i].timestamp) == h
    decreases |bars|
  {
    var k := |bars| - 1;
    if HourOf(bars[k].timestamp) != h {
      GroupMember(bars[..k], h);
      var i :| 0 <= i < k && HourOf(bars[..k][i].timestamp) == h;
      assert HourOf(bars[i].timestamp) == h;
    }
  }

  /** On time-ordered candles the last hour is that of the last candle. */
  lemma {:induction false} LastHourIsLatest(bars: seq<Bar>)
    requires Ordered(bars) && bars != []
    ensures Hours(bars) != [] && Hours(bars)[|Hours(bars)| - 1] == HourOf(bars[|bars| - 1].timestamp)
  {
    HoursFacts(bars);
    var hs := Hours(bars);
    var last := HourOf(bars[|bars| - 1].timestamp);
    assert Group(bars, last) != [];
    assert last in hs;
    var top := hs[|hs| - 1];
    assert top in hs;
    GroupMember(bars, top);
    var i :| 0 <= i < |bars| && HourOf(bars[i].timestamp) == top;
    HourMonotone(bars[i].timestamp, bars[|bars| - 1].timestamp);
  }

  lemma {:induction false} OtherGroups(bars: seq<Bar>, b: Bar, hs: seq<int>)
    requires Inhabited(bars, hs) && HourOf(b.timestamp) !in hs
    ensures Inhabited(bars + [b], hs) && RollAll(bars + [b], hs) == RollAll(bars, hs)
    decreases |hs|
  {
    assert (bars + [b])[..|bars|] == bars;
    if hs != [] {
      OtherGroups(bars, b, hs[..|hs| - 1]);
    }
  }

  lemma {:induction false} RollupAbsorbs(h: int, group: seq<Bar>, b: Bar)
    requires group != []
    ensures Rollup(h, group + [b]) == Absorb(Rollup(h, group), b)
  {
    assert (group + [b])[..|group|] == group;
  }

  lemma {:induction false} SingleVolume(group: seq<Bar>)
    requires |group| == 1
    ensures Volume(group) == group[0].volume
  {
    assert group[..|group| - 1] == [];
  }

  lemma {:induction false} FirstCandle(bars: seq<Bar>)
    requires |bars| == 1
    ensures KeepAll(bars) == [Single(bars[0])]
  {
    var h := HourOf(bars[0].timestamp);
    assert bars[..|bars| - 1] == [];
    var hs := Hours(bars);
    var none: seq<Bar> := [];
    assert Hours(none) == [] && Group(none, h) == [];
    assert InsertHour([], h) == [h];
    assert hs == [h];
    assert Group(bars, h) == bars;
    SingleVolume(bars);
    HoursFacts(bars);
    RollAllLength(bars, hs);
    RollAllAt(bars, hs, 0);
    assert Rollup(h, bars) == Single(bars[0]);
  }

  /** A candle of the last hour is absorbed into it. */
  lemma {:induction false} SameHour(bars: seq<Bar>, b: Bar)
    requires Hours(bars) != [] && Hours(bars)[|Hours(bars)| - 1] == HourOf(b.timestamp)
    ensures
      var done := KeepAll(bars);
      && done != [] && done[|done| - 1].timestamp == HourOf(b.timestamp)
      && KeepAll(bars + [b]) == done[..|done| - 1] + [Absorb(done[|done| - 1], b)]
  {
    var hs, h := Hours(bars), HourOf(b.timestamp);
    var k := |hs| - 1;
    HoursFacts(bars);
    HoursFacts(bars + [b]);
    assert (bars + [b])[..|bars|] == bars;
    assert Hours(bars + [b]) == hs;
    assert Group(bars + [b], h) == Group(bars, h) + [b];
    hide Rollup, Absorb, HourOf, Hours;
    assert hs[k] in hs;
    OtherGroups(bars, b, hs[..k]);
    RollupAbsorbs(h, Group(bars, h), b);
    RollupStamp(h, Group(bars, h));
  }

  lemma {:induction false} RollupStamp(h: int, group: seq<Bar>)
    requires group != []
    ensures Rollup(h, group).timestamp == h
  {
  }

  /** A candle of a later hour starts a new one. */
  lemma {:induction false} NewHour(bars: seq<Bar>, b: Bar)
    requires Hours(bars) != [] && Hours(bars)[|Hours(bars)| - 1] < HourOf(b.timestamp)
    ensures
      var done := KeepAll(bars);
      && done != [] && done[|done| - 1].timestamp < HourOf(b.timestamp)
      && KeepAll(bars + [b]) == done + [Single(b)]
  {
    var hs, h := Hours(bars), HourOf(b.timestamp);
    HoursFacts(bars);
    HoursFacts(bars + [b]);
    assert (bars + [b])[..|bars|] == bars;
    assert Hours(bars + [b]) == hs + [h];
    assert h !in hs;
    assert Group(bars + [b], h) == [b];
    SingleVolume([b]);
    assert Rollup(h, [b]) == Single(b);
    hide Rollup, Single, HourOf, Hours;
    OtherGroups(bars, b, hs);
    assert (hs + [h])[..|hs|] == hs;
    RollupStamp(hs[|hs| - 1], Group(bars, hs[|hs| - 1]));
  }

  /** Main result on ordered candles: bucketing and sorting is the same as one
      pass over the candles. */
  lemma {:induction false} OnePassAgrees(bars: seq<Bar>)
    requires Ordered(bars)
    ensures KeepAll(bars) == OnePass(bars)
    decreases |bars|
  {
    if bars != [] {
      var k := |bars| - 1;
      var before, b := bars[..k], bars[k];
      assert bars == before + [b];
      OnePassAgrees(before);
      if before == [] {
        FirstCandle(bars);
      } else {
        LastHourIsLatest(before);
        HourMonotone(before[k - 1].timestamp, b.timestamp);
        hide KeepAll, Hours, Absorb, Single, HourOf;
        if HourOf(b.timestamp) == Hours(before)[|Hours(before)| - 1] {
          SameHour(before, b);
        } else {
          NewHour(before, b);
        }
      }
    }
  }

  // ------------------------------------------------------------------- volume

  function GroupVolumes(bars: seq<Bar>, hs: seq<int>): real
    decreases |hs|
  {
    if hs == [] then 0.0 else GroupVolumes(bars, hs[..|hs| - 1]) + Volume(Group(bars, hs[|hs| - 1]))
  }

  lemma {:induction false} RolledVolume(bars: seq<Bar>, hs: seq<int>)
    requires Inhabited(bars, hs)
    ensures Volume(RollAll(bars, hs)) == GroupVolumes(bars, hs)
    decreases |hs|
  {
    if hs != [] {
      RolledVolume(bars, hs[..|hs| - 1]);
      var rolled := RollAll(bars, hs);
      assert rolled[..|rolled| - 1] == RollAll(bars, hs[..|hs| - 1]);
    }
  }

  lemma {:induction false} OneMoreCandle(bars: seq<Bar>, b: Bar, hs: seq<int>)
    requires Increasing(hs)
    ensures GroupVolumes(bars + [b], hs) == GroupVolumes(bars, hs)
      + (if HourOf(b.timestamp) in hs then b.volume else 0.0)
    decreases |hs|
  {
    if hs != [] {
      var k := |hs| - 1;
      OneMoreCandle(bars, b, hs[..k]);
      assert (bars + [b])[..|bars|] == bars;
      var g := Group(bars, hs[k]);
      assert (g + [b])[..|g|] == g;
      assert HourOf(b.timestamp) in hs <==> HourOf(b.timestamp) in hs[..k] || HourOf(b.timestamp) == hs[k];
    }
  }

  lemma {:induction false} InsertAddsGroup(bars: seq<Bar>, hs: seq<int>, h: int)
    requires Increasing(hs)
    ensures GroupVolumes(bars, InsertHour(hs, h))
      == GroupVolumes(bars, hs) + (if h in hs then 0.0 else Volume(Group(bars, h)))
    decreases |hs|
  {
    if hs == [] {
      assert [h][..0] == [];
    } else {
      var k := |hs| - 1;
      if h > hs[k] {
        assert (hs + [h])[..|hs|] == hs;
        assert h !in hs;
      } else if h < hs[k] {
        InsertAddsGroup(bars, hs[..k], h);
        var r := InsertHour(hs[..k], h);
        assert (r + [hs[k]])[..|r|] == r;
        assert h in hs <==> h in hs[..k];
      }
    }
  }

  lemma {:induction false} AllVolume(bars: seq<Bar>)
    ensures GroupVolumes(bars, Hours(bars)) == Volume(bars)
    decreases |bars|
  {
    if bars != [] {
      var k := |bars| - 1;
      var before, b := bars[..k], bars[k];
      var h := HourOf(b.timestamp);
      assert bars == before + [b];
      AllVolume(before);
      HoursFacts(before);
      HoursFacts(bars);
      OneMoreCandle(before, b, Hours(before));
      InsertAddsGroup(bars, Hours(before), h);
      if h !in Hours(before) {
        assert Group(before, h) == [];
        assert Group(bars, h) == [b];
        assert [b][..0] == [];
      }
    }
  }

  /** Volume is conserved, except for a dropped trailing hour: its group is the
      only one with fewer than twelve candles that is left out. */
  lemma {:induction false} VolumeConserved(bars: seq<Bar>)
    ensures Volume(KeepAll(bars)) == Volume(bars)
    ensures
      var hs := Hours(bars);
      var dropped := if KeptHours(bars) == hs then [] else Group(bars, hs[|hs| - 1]);
      Volume(Hourly(bars)) == Volume(bars) - Volume(dropped) && |dropped| < FULL_HOUR
  {
    HoursFacts(bars);
    AllVolume(bars);
    RolledVolume(bars, Hours(bars));
    RolledVolume(bars, KeptHours(bars));
  }

  // ------------------------------------------------------------------ splitting

  lemma {:induction false} GroupConcat(a: seq<Bar>, b: seq<Bar>, h: int)
    ensures Group(a + b, h) == Group(a, h) + Group(b, h)
    decreases |b|
  {
    if b == [] {
      assert a + b == a;
    } else {
      var k := |b| - 1;
      assert (a + b)[..|a + b| - 1] == a + b[..k];
      GroupConcat(a, b[..k], h);
    }
  }

  lemma {:induction false} HoursConcat(a: seq<Bar>, b: seq<Bar>)
    requires Separated(a, b)
    ensures Hours(a + b) == Hours(a) + Hours(b)
  {
    HoursFacts(a);
    HoursFacts(b);
    HoursFacts(a + b);
    var both := Hours(a) + Hours(b);
    forall x
      ensures x in both <==> x in Hours(a + b)
    {
      GroupConcat(a, b, x);
    }
    forall i, j | 0 <= i < j < |both|
      ensures both[i] < both[j]
    {
      if i < |Hours(a)| <= j {
        assert both[i] in Hours(a) && both[j] in Hours(b);
        GroupMember(a, both[i]);
        GroupMember(b, both[j]);
      }
    }
    IncreasingUnique(both, Hours(a + b));
  }

  /** Every hour of a is before every hour of b. */
  ghost predicate Separated(a: seq<Bar>, b: seq<Bar>) {
    forall i, j :: 0 <= i < |a| && 0 <= j < |b| ==> HourOf(a[i].timestamp) < HourOf(b[j].timestamp)
  }

  lemma {:induction false} RollFirst(a: seq<Bar>, b: seq<Bar>, hs: seq<int>)
    requires Inhabited(a, hs) && forall h :: h in hs ==> Group(b, h) == []
    ensures Inhabited(a + b, hs) && RollAll(a + b, hs) == RollAll(a, hs)
    decreases |hs|
  {
    forall h | h in hs
      ensures Group(a + b, h) == Group(a, h)
    {
      GroupConcat(a, b, h);
    }
    if hs != [] {
      RollFirst(a, b, hs[..|hs| - 1]);
    }
  }

  lemma {:induction false} RollSecond(a: seq<Bar>, b: seq<Bar>, front: seq<int>, hs: seq<int>)
    requires Inhabited(a + b, front) && Inhabited(b, hs) && forall h :: h in hs ==> Group(a, h) == []
    ensures Inhabited(a + b, front + hs) && RollAll(a + b, front + hs) == RollAll(a + b, front) + RollAll(b, hs)
    decreases |hs|
  {
    forall h | h in front + hs
      ensures Group(a + b, h) != [] && (h in hs ==> Group(a + b, h) == Group(b, h))
    {
      GroupConcat(a, b, h);
    }
    if hs == [] {
      assert front + hs == front;
    } else {
      var k := |hs| - 1;
      assert (front + hs)[..|front + hs| - 1] == front + hs[..k];
      RollSecond(a, b, front, hs[..k]);
    }
  }

  lemma {:induction false} KeptHoursConcat(a: seq<Bar>, b: seq<Bar>)
    requires Separated(a, b) && b != []
    ensures KeptHours(a + b) == Hours(a) + KeptHours(b)
  {
    hide Hours, Group, HourOf, Separated;
    HoursConcat(a, b);
    SomeHour(b);
    var last := Hours(b)[|Hours(b)| - 1];
    Apart(a, b, last);
    GroupConcat(a, b, last);
    assert Group(a + b, last) == Group(b, last);
  }

  lemma {:induction false} SomeHour(bars: seq<Bar>)
    requires bars != []
    ensures Hours(bars) != [] && Group(bars, Hours(bars)[|Hours(bars)| - 1]) != []
  {
    HoursFacts(bars);
    assert Group(bars, HourOf(bars[|bars| - 1].timestamp)) != [];
    assert Hours(bars)[|Hours(bars)| - 1] in Hours(bars);
  }

  /** Main result on splitting: at an hour boundary with candles after it, the
      first part keeps all its hours and the second is rolled up on its own. */
  lemma {:induction false} SplitsAtHour(a: seq<Bar>, b: seq<Bar>)
    requires Separated(a, b) && b != []
    ensures Hourly(a + b) == KeepAll(a) + Hourly(b)
  {
    HoursFacts(a);
    HoursFacts(b);
    HoursFacts(a + b);
    KeptHoursConcat(a, b);
    hide Hours, Group, Separated, KeptHours, RollAll;
    assert forall h :: h in KeptHours(b) ==> h in Hours(b) by {
      KeptAreHours(b);
    }
    forall h
      ensures Group(a, h) == [] || Group(b, h) == []
    {
      Apart(a, b, h);
    }
    RollFirst(a, b, Hours(a));
    RollSecond(a, b, Hours(a), KeptHours(b));
  }

  lemma {:induction false} KeptAreHours(bars: seq<Bar>)
    ensures forall h :: h in KeptHours(bars) ==> h in Hours(bars)
  {
  }

  lemma {:induction false} Apart(a: seq<Bar>, b: seq<Bar>, h: int)
    requires Separated(a, b)
    ensures Group(a, h) == [] || Group(b, h) == []
  {
    if Group(a, h) != [] && Group(b, h) != [] {
      GroupMember(a, h);
      GroupMember(b, h);
      assert false;
    }
  }

  // ---------------------------------------------------------- well-formedness

  lemma {:induction false} GroupWellFormed(bars: seq<Bar>, h: int)
    requires AllWellFormed(bars)
    ensures AllWellFormed(Group(bars, h))
    decreases |bars|
  {
    if bars != [] {
      GroupWellFormed(bars[..|bars| - 1], h);
    }
  }

  /** Rolling up well-formed candles gives well-formed candles. */
  lemma {:induction false} HourlyWellFormed(bars: seq<Bar>)
    requires AllWellFormed(bars)
    ensures AllWellFormed(Hourly(bars))
  {
    HourlyExact(bars);
    var out := Hourly(bars);
    forall i | 0 <= i < |out|
      ensures WellFormed(out[i])
    {
      var group := Group(bars, out[i].timestamp);
      GroupWellFormed(bars, out[i].timestamp);
      assert WellFormed(group[|group| - 1]);
    }
  }

  /** So the directional bounds hold on the candles the classifier sees. */
  lemma {:induction false} AdxBoundsOnHourly(bars: seq<Bar>, n: nat)
    requires n >= 1 && AllWellFormed(bars) && |Hourly(bars)| >= 2 * n + 1
    ensures
      var r := Adx(Hourly(bars), n);
      && r.Ok? && 0.0 <= r.value.adx <= 100.0
      && r.value.plusDi >= 0.0 && r.value.minusDi >= 0.0 && r.value.plusDi + r.value.minusDi <= 100.0
  {
    HourlyWellFormed(bars);
    AdxBounds(Hourly(bars), n);
  }

  // --------------------------------------------------------------- price unit

  lemma {:induction false} GroupRequotes(bars: seq<Bar>, h: int, c: real)
    ensures Group(RequoteAll(bars, c), h) == RequoteAll(Group(bars, h), c)
    decreases |bars|
  {
    hide Times;
    if bars != [] {
      var k := |bars| - 1;
      assert RequoteAll(bars, c)[..k] == RequoteAll(bars[..k], c);
      GroupRequotes(bars[..k], h, c);
      assert RequoteAll(Group(bars[..k], h) + [bars[k]], c)
        == RequoteAll(Group(bars[..k], h), c) + [Requote(bars[k], c)];
    }
  }

  lemma {:induction false} HoursRequote(bars: seq<Bar>, c: real)
    ensures Hours(RequoteAll(bars, c)) == Hours(bars)
    decreases |bars|
  {
    hide Times;
    if bars != [] {
      var k := |bars| - 1;
      assert RequoteAll(bars, c)[..k] == RequoteAll(bars[..k], c);
      HoursRequote(bars[..k], c);
    }
  }

  lemma {:induction false} RangeRequotes(group: seq<Bar>, c: real)
    requires group != [] && c > 0.0
    ensures HighOf(RequoteAll(group, c)) == Times(c, HighOf(group))
    ensures LowOf(RequoteAll(group, c)) == Times(c, LowOf(group))
    ensures Volume(RequoteAll(group, c)) == Volume(group)
    decreases |group|
  {
    hide Times;
    var k := |group| - 1;
    assert RequoteAll(group, c)[..k] == RequoteAll(group[..k], c);
    if |group| == 1 {
      assert RequoteAll(group, c)[..0] == [] && group[..0] == [];
    } else {
      RangeRequotes(group[..k], c);
      OrderScales(c, HighOf(group[..k]), group[k].high);
      OrderScales(c, LowOf(group[..k]), group[k].low);
    }
  }

  lemma {:induction false} RollRequotes(bars: seq<Bar>, hs: seq<int>, c: real)
    requires Inhabited(bars, hs) && c > 0.0
    ensures Inhabited(RequoteAll(bars, c), hs)
    ensures RollAll(RequoteAll(bars, c), hs) == RequoteAll(RollAll(bars, hs), c)
    decreases |hs|
  {
    hide Times;
    forall h | h in hs
      ensures Group(RequoteAll(bars, c), h) == RequoteAll(Group(bars, h), c)
    {
      GroupRequotes(bars, h, c);
    }
    if hs != [] {
      var k := |hs| - 1;
      RollRequotes(bars, hs[..k], c);
      RangeRequotes(Group(bars, hs[k]), c);
      var rest, last := RollAll(bars, hs[..k]), Rollup(hs[k], Group(bars, hs[k]));
      assert RequoteAll(rest + [last], c) == RequoteAll(rest, c) + [Requote(last, c)];
    }
  }

  /** Requoting and rolling up commute, so the price-unit results reach the raw
      five-minute candles. */
  lemma {:induction false} HourlyRequotes(bars: seq<Bar>, c: real)
    requires c > 0.0
    ensures Hourly(RequoteAll(bars, c)) == RequoteAll(Hourly(bars), c)
  {
    hide Times;
    HoursFacts(bars);
    HoursRequote(bars, c);
    RollRequotes(bars, KeptHours(bars), c);
    if Hours(bars) != [] {
      GroupRequotes(bars, Hours(bars)[|Hours(bars)| - 1], c);
    }
  }
}
