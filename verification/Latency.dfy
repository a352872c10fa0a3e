/** The latency estimator of client/src/playback.js: two ring buffers of twenty places and an exponential filter. */
module Latency {
  import opened Options

  function Abs(x: real): (r: real)
    ensures r >= 0.0 && (r == x || r == -x)
  {
    if x < 0.0 then -x else x
  }

  function Sum(data: seq<real>): real {
    if data == [] then 0.0 else Sum(data[..|data| - 1]) + data[|data| - 1]
  }

  /** The mean of some numbers; without any it is not a number, which compares with nothing. */
  function Average(data: seq<real>): Option<real> {
    if data == [] then None else Some(Sum(data) / |data| as real)
  }

  /** Assigning to an array element, or to the place right after the last one. */
  function Put(data: seq<real>, i: nat, x: real): seq<real>
    requires i <= |data|
  {
    if i < |data| then data[i := x] else data + [x]
  }

  // ---------------------------------------------------------------------------
  // What the variables mean
  // ---------------------------------------------------------------------------

  /** The last twenty of some numbers, or all of them. */
  function Last(all: seq<real>): seq<real> {
    if |all| <= 20 then all else all[|all| - 20..]
  }

  /** The k-th number of a series is found at place k modulo twenty. */
  predicate Kept(ring: seq<real>, all: seq<real>, k: nat) {
    k % 20 < |ring| && k < |all| && ring[k % 20] == all[k]
  }

  /** A ring buffer keeps the last twenty numbers of a series, or all of them. */
  ghost predicate IsWindow(ring: seq<real>, all: seq<real>) {
    && |ring| == (if |all| <= 20 then |all| else 20)
    && (forall k: nat :: |all| - 20 <= k < |all| ==> Kept(ring, all, k))
  }

  /** The absolute differences between successive samples. */
  function Ranges(samples: seq<real>): seq<real> {
    if |samples| <= 1 then []
    else Ranges(samples[..|samples| - 1]) + [Abs(samples[|samples| - 1] - samples[|samples| - 2])]
  }

  /** The exponential filter, started at zero. */
  function Estimate(samples: seq<real>): real {
    if samples == [] then 0.0
    else 0.1 * Estimate(samples[..|samples| - 1]) + 0.9 * samples[|samples| - 1]
  }

  /** A number is the filter's estimate from some samples. */
  ghost predicate Filtered(estimate: real, samples: seq<real>) {
    estimate == Estimate(samples)
  }

  /** The control limits: three moving ranges around a mean. */
  function Upper(mean: Option<real>, range: Option<real>): Option<real> {
    if mean.Some? && range.Some? then Some(mean.value + 3.0 * range.value / 1.128) else None
  }

  function Lower(mean: Option<real>, range: Option<real>): Option<real> {
    if mean.Some? && range.Some? then Some(mean.value - 3.0 * range.value / 1.128) else None
  }

  /** The means of the last samples and of the last moving ranges. */
  function SampleMean(samples: seq<real>): Option<real> {
    Average(Last(samples))
  }

  function MovingMean(samples: seq<real>): Option<real> {
    Average(Last(Ranges(samples)))
  }

  lemma EstimateSnoc(samples: seq<real>, x: real)
    ensures Estimate(samples + [x]) == 0.1 * Estimate(samples) + 0.9 * x
  {
    assert (samples + [x])[..|samples|] == samples;
  }

  lemma {:induction false} RangesSnoc(samples: seq<real>, x: real)
    ensures samples == [] ==> Ranges(samples + [x]) == []
    ensures samples != [] ==> Ranges(samples + [x]) == Ranges(samples) + [Abs(x - samples[|samples| - 1])]
    ensures |Ranges(samples)| == if samples == [] then 0 else |samples| - 1
  {
    RangesLength(samples);
    if samples != [] {
      hide *;
      var more := samples + [x];
      RangesOfMore(more);
      assert more[..|samples|] == samples && more[|samples|] == x && more[|samples| - 1] == samples[|samples| - 1];
    }
  }

  lemma {:induction false} RangesOfMore(more: seq<real>)
    requires |more| >= 2
    ensures Ranges(more) == Ranges(more[..|more| - 1]) + [Abs(more[|more| - 1] - more[|more| - 2])]
  {
  }

  lemma {:induction false} RangesLength(samples: seq<real>)
    ensures |Ranges(samples)| == if samples == [] then 0 else |samples| - 1
  {
    if |samples| > 1 {
      RangesLength(samples[..|samples| - 1]);
    }
  }

  /** Overwriting the oldest place keeps the window. */
  lemma PutKeepsWindow(ring: seq<real>, all: seq<real>, x: real)
    requires IsWindow(ring, all)
    ensures |all| % 20 <= |ring|
    ensures IsWindow(Put(ring, |all| % 20, x), all + [x])
  {
    var n := |all|;
    var put := Put(ring, n % 20, x);
    forall k: nat | n + 1 - 20 <= k <= n ensures Kept(put, all + [x], k) {
      if k < n {
        assert Kept(ring, all, k);
        assert k % 20 != n % 20;
      }
    }
  }

  lemma {:induction false} SumConcat(a: seq<real>, b: seq<real>)
    ensures Sum(a + b) == Sum(a) + Sum(b)
    decreases b
  {
    if b == [] {
      assert a + b == a;
    } else {
      assert (a + b)[..|a + b| - 1] == a + b[..|b| - 1];
      SumConcat(a, b[..|b| - 1]);
    }
  }

  lemma Quotient(sum: real, n: real)
    requires n > 0.0
    ensures n * (sum / n) == sum
  {
  }

  lemma {:induction false} MeanOf(data: seq<real>)
    requires data != []
    ensures Average(data).Some? && |data| as real * Average(data).value == Sum(data)
  {
    hide Sum;
    Quotient(Sum(data), |data| as real);
  }

  lemma {:induction false} SumSnoc(a: seq<real>, x: real)
    ensures Sum(a + [x]) == Sum(a) + x
  {
    assert (a + [x])[..|a|] == a;
  }

  /** The average is the mean: so many times it makes the sum, and the sum is what adding up the numbers gives. */
  lemma {:induction false} AverageIsMean(a: seq<real>, x: real)
    ensures Average(a + [x]).Some? && (|a| + 1) as real * Average(a + [x]).value == Sum(a + [x])
    ensures Sum(a + [x]) == Sum(a) + x && Sum([]) == 0.0
    ensures Average([]).None?
  {
    assert Sum([]) == 0.0 && Average([]).None?;
    hide *;
    MeanOf(a + [x]);
    SumSnoc(a, x);
  }

  /** Where the oldest number of the window is kept. */
  function Oldest(n: nat): nat {
    if n <= 20 then 0 else n % 20
  }

  lemma PlaceOf(n: nat, i: nat)
    requires n > 20 && i < 20
    ensures (n - 20 + i) % 20 == if n % 20 + i < 20 then n % 20 + i else n % 20 + i - 20
  {
  }

  lemma RotationAt(ring: seq<real>, all: seq<real>, i: nat)
    requires IsWindow(ring, all) && i < |ring|
    ensures Oldest(|all|) <= |ring| && |Last(all)| == |ring|
    ensures Last(all)[i] == (ring[Oldest(|all|)..] + ring[..Oldest(|all|)])[i]
  {
    var n := |all|;
    if n > 20 {
      PlaceOf(n, i);
      var k := n - 20 + i;
      assert Kept(ring, all, k);
      assert Last(all)[i] == all[k];
    } else {
      assert Kept(ring, all, i);
    }
  }

  /** The ring holds exactly the last numbers of the series, turned round: so their mean is the same. */
  lemma WindowIsRotation(ring: seq<real>, all: seq<real>)
    requires IsWindow(ring, all)
    ensures Oldest(|all|) <= |ring|
    ensures Last(all) == ring[Oldest(|all|)..] + ring[..Oldest(|all|)]
    ensures multiset(ring) == multiset(Last(all))
    ensures Average(ring) == Average(Last(all))
  {
    WindowTurned(ring, all);
    TurningKeeps(ring[..Oldest(|all|)], ring[Oldest(|all|)..]);
    assert ring == ring[..Oldest(|all|)] + ring[Oldest(|all|)..];
  }

  lemma WindowTurned(ring: seq<real>, all: seq<real>)
    requires IsWindow(ring, all)
    ensures Oldest(|all|) <= |ring|
    ensures Last(all) == ring[Oldest(|all|)..] + ring[..Oldest(|all|)]
  {
    var n := |all|;
    assert n > 20 ==> n % 20 < 20;
    assert |Last(all)| == |ring|;
    forall i | 0 <= i < |ring| ensures Last(all)[i] == (ring[Oldest(n)..] + ring[..Oldest(n)])[i] {
      RotationAt(ring, all, i);
    }
  }

  lemma TurningKeeps(a: seq<real>, b: seq<real>)
    ensures multiset(a + b) == multiset(b + a)
    ensures Average(a + b) == Average(b + a)
  {
    SumConcat(a, b);
    SumConcat(b, a);
  }

  // ---------------------------------------------------------------------------
  // The filter
  // ---------------------------------------------------------------------------

  /** 0.1 to the power of n. */
  function Power(n: nat): real {
    if n == 0 then 1.0 else 0.1 * Power(n - 1)
  }

  /** The closed form: every sample counts a tenth of the next one. */
  function WeightedSum(samples: seq<real>): real {
    if samples == [] then 0.0
    else 0.9 * Power(|samples| - 1) * samples[0] + WeightedSum(samples[1..])
  }

  lemma {:induction false} PowerIsPositive(n: nat)
    ensures 0.0 < Power(n) <= 1.0
  {
    if n > 0 {
      PowerIsPositive(n - 1);
    }
  }

  lemma {:induction false} WeightedSnoc(samples: seq<real>, x: real)
    ensures WeightedSum(samples + [x]) == 0.1 * WeightedSum(samples) + 0.9 * x
  {
    if samples == [] {
      assert samples + [x] == [x];
      assert WeightedSum([x]) == 0.9 * Power(0) * x + WeightedSum([x][1..]);
    } else {
      assert (samples + [x])[1..] == samples[1..] + [x];
      WeightedSnoc(samples[1..], x);
      var w := 0.9 * samples[0];
      assert 0.9 * Power(|samples|) * samples[0] == 0.1 * (0.9 * Power(|samples| - 1) * samples[0]);
    }
  }

  /** The filter computes the weighted sum. */
  lemma {:induction false} EstimateIsWeightedSum(samples: seq<real>)
    ensures Estimate(samples) == WeightedSum(samples)
  {
    if samples != [] {
      var front, x := samples[..|samples| - 1], samples[|samples| - 1];
      assert samples == front + [x];
      EstimateIsWeightedSum(front);
      WeightedSnoc(front, x);
    }
  }

  /** After n samples between lo and hi the estimate has come within a factor of 1 - 0.1^n of that range. */
  lemma {:induction false} EstimateIsBounded(samples: seq<real>, lo: real, hi: real)
    requires forall i :: 0 <= i < |samples| ==> lo <= samples[i] <= hi
    ensures (1.0 - Power(|samples|)) * lo <= Estimate(samples) <= (1.0 - Power(|samples|)) * hi
  {
    if samples != [] {
      var front, x := samples[..|samples| - 1], samples[|samples| - 1];
      EstimateIsBounded(front, lo, hi);
      Shrink(Power(|front|), Estimate(front), lo, hi, x);
    }
  }

  lemma Shrink(p: real, e: real, lo: real, hi: real, x: real)
    requires (1.0 - p) * lo <= e <= (1.0 - p) * hi && lo <= x <= hi
    ensures (1.0 - 0.1 * p) * lo <= 0.1 * e + 0.9 * x <= (1.0 - 0.1 * p) * hi
  {
    assert (1.0 - 0.1 * p) * lo == 0.1 * ((1.0 - p) * lo) + 0.9 * lo;
    assert (1.0 - 0.1 * p) * hi == 0.1 * ((1.0 - p) * hi) + 0.9 * hi;
  }

  /** Two estimators that have taken the same last samples differ by the old difference, divided by ten each time. */
  lemma {:induction false} EstimateForgets(a: seq<real>, b: seq<real>, recent: seq<real>)
    ensures Estimate(a + recent) - Estimate(b + recent) == Power(|recent|) * (Estimate(a) - Estimate(b))
    decreases recent
  {
    if recent == [] {
      assert a + recent == a && b + recent == b;
    } else {
      var front, x := recent[..|recent| - 1], recent[|recent| - 1];
      assert a + recent == (a + front) + [x] && b + recent == (b + front) + [x];
      EstimateSnoc(a + front, x);
      EstimateSnoc(b + front, x);
      EstimateForgets(a, b, front);
      FallsToATenth(Power(|front|), Estimate(a) - Estimate(b));
    }
  }

  lemma FallsToATenth(p: real, d: real)
    ensures (0.1 * p) * d == 0.1 * (p * d)
  {
  }

  // ---------------------------------------------------------------------------
  // The control limits
  // ---------------------------------------------------------------------------

  lemma {:induction false} SumIsNonnegative(data: seq<real>)
    requires forall i :: 0 <= i < |data| ==> data[i] >= 0.0
    ensures Sum(data) >= 0.0
  {
    if data != [] {
      SumIsNonnegative(data[..|data| - 1]);
    }
  }

  lemma {:induction false} RangesAreNonnegative(samples: seq<real>)
    ensures forall i :: 0 <= i < |Ranges(samples)| ==> Ranges(samples)[i] >= 0.0
  {
    if |samples| > 1 {
      RangesAreNonnegative(samples[..|samples| - 1]);
    }
  }

  /** The lower limit is never above the upper one, so no sample is outside both. */
  lemma LimitsAreOrdered(samples: seq<real>, x: real)
    ensures var mean, range := SampleMean(samples), MovingMean(samples);
      && (Upper(mean, range).Some? <==> |samples| >= 2) && (Lower(mean, range).Some? <==> |samples| >= 2)
      && (|samples| >= 2 ==> !(x > Upper(mean, range).value && x < Lower(mean, range).value))
  {
    RangesLength(samples);
    if |samples| >= 2 {
      RangesAreNonnegative(samples);
      AverageIsNonnegative(Last(Ranges(samples)));
      assert MovingMean(samples).value >= 0.0;
    }
  }

  /** The limits lie on both sides of the mean of the last samples, six mean ranges over 1.128 apart. */
  lemma {:induction false} LimitsAreCentred(samples: seq<real>)
    requires |samples| >= 2
    ensures var mean, range := SampleMean(samples), MovingMean(samples);
            var ucl, lcl := Upper(mean, range), Lower(mean, range);
      && mean.Some? && range.Some? && ucl.Some? && lcl.Some?
      && |Last(samples)| as real * mean.value == Sum(Last(samples))
      && |Last(Ranges(samples))| as real * range.value == Sum(Last(Ranges(samples)))
      && ucl.value + lcl.value == 2.0 * mean.value
      && (ucl.value - lcl.value) * 1.128 == 6.0 * range.value
  {
    hide *;
    WindowsAreNonempty(samples);
    SampleMeanOf(samples);
    MovingMeanOf(samples);
    LimitsAreApart(SampleMean(samples), MovingMean(samples));
  }

  lemma {:induction false} SampleMeanOf(samples: seq<real>)
    requires Last(samples) != []
    ensures SampleMean(samples).Some? && |Last(samples)| as real * SampleMean(samples).value == Sum(Last(samples))
  {
    hide Last, Average, Sum;
    MeanOf(Last(samples));
  }

  lemma {:induction false} MovingMeanOf(samples: seq<real>)
    requires Last(Ranges(samples)) != []
    ensures MovingMean(samples).Some?
    ensures |Last(Ranges(samples))| as real * MovingMean(samples).value == Sum(Last(Ranges(samples)))
  {
    hide Last, Ranges, Average, Sum;
    MeanOf(Last(Ranges(samples)));
  }

  lemma {:induction false} WindowsAreNonempty(samples: seq<real>)
    requires |samples| >= 2
    ensures Last(samples) != [] && Last(Ranges(samples)) != []
  {
    RangesLength(samples);
    hide Ranges;
  }

  lemma LimitsAreApart(mean: Option<real>, range: Option<real>)
    requires mean.Some? && range.Some?
    ensures var ucl, lcl := Upper(mean, range), Lower(mean, range);
      && ucl.Some? && lcl.Some? && ucl.value + lcl.value == 2.0 * mean.value
      && (ucl.value - lcl.value) * 1.128 == 6.0 * range.value
  {
  }

  lemma AverageIsNonnegative(data: seq<real>)
    requires data != [] && forall i :: 0 <= i < |data| ==> data[i] >= 0.0
    ensures Average(data).value >= 0.0
  {
    SumIsNonnegative(data);
  }

  // ---------------------------------------------------------------------------
  // The script's global variables
  // ---------------------------------------------------------------------------

  class Estimator {
    var latencies: seq<real>
    var movings: seq<real>
    var curIndex: int
    var befIndex: int
    var movIndex: int
    var oldMoving: Option<real>
    var ucl: Option<real>
    var lcl: Option<real>
    var estimation: real
    var localLat: real

    /** Every sample taken so far. */
    ghost var samples: seq<real>

    /** Both arrays are sliding windows, and each index points where it should through every wrap-around. */
    ghost predicate Windows()
      reads this`latencies, this`movings, this`curIndex, this`befIndex, this`movIndex, this`samples
    {
      var n := |samples|;
      && IsWindow(latencies, samples)
      && IsWindow(movings, Ranges(samples))
      && curIndex == n % 20
      && befIndex == (if n == 0 then -1 else (n - 1) % 20)
      && movIndex == (if n == 0 then 0 else (n - 1) % 20)
    }

    /** The estimate is the filter's. */
    ghost predicate Valid()
      reads this
    {
      Windows() && Filtered(estimation, samples) && localLat == estimation
    }

    constructor ()
      ensures Valid() && samples == []
    {
      latencies, movings := [], [];
      curIndex, befIndex, movIndex := 0, -1, 0;
      oldMoving, ucl, lcl := None, Some(0.0), Some(0.0);
      estimation, localLat := 0.0, 0.0;
      samples := [];
    }

    /** Takes in a pong: half of what the round trip lasted beyond the time spent in the server. */
    method EstimateLatency(sendTime: real, serviceTime: real, receiveTime: real)
      requires Valid()
      modifies this
      ensures Valid()
      ensures samples == old(samples) + [(receiveTime - sendTime - serviceTime) / 2.0]
      ensures ucl == Upper(SampleMean(samples), MovingMean(samples))
      ensures lcl == Lower(SampleMean(samples), MovingMean(samples))
    {
      var lat := (receiveTime - sendTime - serviceTime) / 2.0;
      TakeSample(lat);
      Filter(old(samples), lat);
    }

    /** The rings, the indices and the control limits take in a sample. */
    method TakeSample(lat: real)
      requires Valid()
      modifies this`latencies, this`movings, this`curIndex, this`befIndex, this`movIndex, this`oldMoving,
               this`ucl, this`lcl, this`samples
      ensures samples == old(samples) + [lat] && Windows()
      ensures ucl == Upper(SampleMean(samples), MovingMean(samples))
      ensures lcl == Lower(SampleMean(samples), MovingMean(samples))
    {
      hide IsWindow, Ranges, Upper, Lower, SampleMean, MovingMean, Filtered;
      RecordLatency(lat);
      AdvanceIndices();
      UpdateLimits();
    }

    /** The weight of the old estimate is 0.1: the test for an outlier asks for a sample above the upper and below
        the lower limit. */
    method Filter(ghost before: seq<real>, lat: real)
      requires samples == before + [lat] && Filtered(estimation, before)
      requires ucl == Upper(SampleMean(samples), MovingMean(samples))
      requires lcl == Lower(SampleMean(samples), MovingMean(samples))
      modifies this`estimation, this`localLat
      ensures Filtered(estimation, samples) && localLat == estimation
    {
      LimitsAreOrdered(samples, lat);
      if ucl.Some? && lcl.Some? && lat > ucl.value && lat < lcl.value {
        assert false;
      }
      EstimateSnoc(before, lat);
      estimation := 0.1 * estimation + 0.9 * lat;
      localLat := estimation;
    }

    method UpdateLimits()
      requires IsWindow(latencies, samples) && IsWindow(movings, Ranges(samples))
      modifies this`ucl, this`lcl
      ensures ucl == Upper(SampleMean(samples), MovingMean(samples))
      ensures lcl == Lower(SampleMean(samples), MovingMean(samples))
    {
      WindowIsRotation(latencies, samples);
      WindowIsRotation(movings, Ranges(samples));
      var sampleMean := Average(latencies);
      var movingMean := Average(movings);
      ucl := Upper(sampleMean, movingMean);
      lcl := Lower(sampleMean, movingMean);
    }

    /** The sample and its distance from the one before go into the rings. */
    method RecordLatency(lat: real)
      requires Valid()
      modifies this`latencies, this`movings, this`movIndex, this`oldMoving, this`samples
      ensures samples == old(samples) + [lat]
      ensures IsWindow(latencies, samples) && IsWindow(movings, Ranges(samples))
      ensures movIndex == (|samples| - 1) % 20
    {
      PutKeepsWindow(latencies, samples, lat);
      latencies := Put(latencies, curIndex, lat);
      if befIndex >= 0 {
        assert Kept(latencies, samples + [lat], |samples|);
        assert Kept(latencies, samples + [lat], |samples| - 1);
        RecordMoving(Abs(latencies[curIndex] - latencies[befIndex]));
      }
      RangesSnoc(samples, lat);
      samples := samples + [lat];
    }

    method RecordMoving(moving: real)
      requires IsWindow(movings, Ranges(samples)) && samples != [] && movIndex == (|samples| - 1) % 20
      modifies this`movings, this`movIndex, this`oldMoving
      ensures IsWindow(movings, Ranges(samples) + [moving]) && movIndex == |samples| % 20
    {
      RangesLength(samples);
      PutKeepsWindow(movings, Ranges(samples), moving);
      if |movings| > 0 {
        oldMoving := if movIndex > 0 then Some(movings[movIndex - 1]) else None;
      }
      movings := Put(movings, movIndex, moving);
      movIndex := movIndex + 1;
      if movIndex >= 20 {
        movIndex := 0;
      }
    }

    method AdvanceIndices()
      requires samples != []
      requires curIndex == (|samples| - 1) % 20
      requires befIndex == if |samples| == 1 then -1 else (|samples| - 2) % 20
      modifies this`curIndex, this`befIndex
      ensures curIndex == |samples| % 20 && befIndex == (|samples| - 1) % 20
    {
      curIndex := curIndex + 1;
      if curIndex >= 20 {
        curIndex := 0;
      }
      befIndex := befIndex + 1;
      if befIndex >= 20 {
        befIndex := 0;
      }
    }
  }
}
