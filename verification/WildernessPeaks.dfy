/** The day's wilderness peaks (src/lib/tickers.ts, wilderness_peak_times). */
module WildernessPeaks {

  const HOUR := 3_600_000

  datatype PeakTier = High | Medium | Low

  class Peak {
    var startTime: int
    var finishTime: int
    const peakTier: PeakTier

    constructor (hours: int, tier: PeakTier)
      ensures startTime == finishTime == hours && peakTier == tier
    {
      startTime, finishTime, peakTier := hours, hours, tier;
    }
  }

  function TotalHours(s: seq<int>): int {
    if s == [] then 0 else TotalHours(s[..|s| - 1]) + s[|s| - 1]
  }

  /** Eleven draws of one or two hours. */
  ghost predicate Draws(draws: seq<int>) {
    |draws| == 11 && forall i :: 0 <= i < |draws| ==> 1 <= draws[i] <= 2
  }

  /** The lengths in hours: the draws and what is left of the day. */
  function Lengths(draws: seq<int>): seq<int> {
    draws + [24 - TotalHours(draws)]
  }

  /** A shuffle lists every position once. */
  ghost predicate IsShuffle(order: seq<nat>, n: nat) {
    && |order| == n
    && (forall i :: 0 <= i < n ==> order[i] < n)
    && (forall i, j :: 0 <= i < j < n ==> order[i] != order[j])
  }

  function Shuffled<T>(s: seq<T>, order: seq<nat>): (r: seq<T>)
    requires forall i :: 0 <= i < |order| ==> order[i] < |s|
    ensures |r| == |order|
    ensures forall i :: 0 <= i < |order| ==> r[i] == s[order[i]]
  {
    seq(|order|, i requires 0 <= i < |order| => s[order[i]])
  }

  // ---------- The ticker ----------

  /** The instant so many stretches into the day. */
  function At(hours: seq<int>, now: int, i: nat): int
    requires i <= |hours|
  {
    now + TotalHours(hours[..i]) * HOUR
  }

  lemma NextAt(hours: seq<int>, now: int, i: nat)
    requires i < |hours|
    ensures At(hours, now, i + 1) == At(hours, now, i) + hours[i] * HOUR
  {
    assert hours[..i + 1][..i] == hours[..i];
  }

  /** Lying end to end from a start time. */
  ghost predicate LaidOut(peaks: seq<Peak>, hours: seq<int>, now: int, n: nat)
    requires n <= |peaks| == |hours|
    reads peaks
  {
    forall i :: 0 <= i < n ==>
                  peaks[i].startTime == At(hours, now, i) && peaks[i].finishTime == At(hours, now, i + 1)
  }

  ghost predicate Distinct(peaks: seq<Peak>) {
    forall i, j :: 0 <= i < j < |peaks| ==> peaks[i] != peaks[j]
  }

  /** The peaks before the shuffle, each holding its length. */
  method DrawPeaks(draws: seq<int>, tiers: seq<PeakTier>) returns (peaks: seq<Peak>)
    requires Draws(draws) && |tiers| == |draws|
    ensures fresh(peaks) && Distinct(peaks) && |peaks| == |draws| + 1
    ensures forall i :: 0 <= i < |peaks| ==> peaks[i].finishTime == Lengths(draws)[i]
    ensures forall i :: 0 <= i < |peaks| ==> peaks[i].peakTier == (tiers + [Low])[i]
  {
    var hoursUsed := 0;
    peaks := [];
    for i := 0 to |draws|
      invariant hoursUsed == TotalHours(draws[..i])
      invariant fresh(peaks) && Distinct(peaks) && |peaks| == i
      invariant forall k :: 0 <= k < i ==> peaks[k].finishTime == draws[k] && peaks[k].peakTier == tiers[k]
    {
      var peak := new Peak(draws[i], tiers[i]);
      assert peak !in peaks;
      peaks := peaks + [peak];
      hoursUsed := hoursUsed + draws[i];
      assert draws[..i + 1][..i] == draws[..i];
    }
    assert draws[..|draws|] == draws;
    var lastPeak := new Peak(24 - hoursUsed, Low);
    peaks := peaks + [lastPeak];
  }

  /** Each length replaced by its stretch of the day. */
  method LayOut(peaks: seq<Peak>, now: int, ghost hours: seq<int>)
    requires Distinct(peaks) && |hours| == |peaks|
    requires forall i :: 0 <= i < |peaks| ==> peaks[i].finishTime == hours[i]
    modifies peaks
    ensures LaidOut(peaks, hours, now, |peaks|)
  {
    var currentTime := now;
    for i := 0 to |peaks|
      invariant currentTime == At(hours, now, i)
      invariant LaidOut(peaks, hours, now, i)
      invariant forall k :: i <= k < |peaks| ==> peaks[k].finishTime == hours[k]
    {
      var peak := peaks[i];
      NextAt(hours, now, i);
      peak.startTime := currentTime;
      currentTime := currentTime + peak.finishTime * HOUR;
      peak.finishTime := currentTime;
    }
  }

  method WildernessPeakTimes(draws: seq<int>, tiers: seq<PeakTier>, shuffle: seq<nat>, now: int)
    returns (peakInterval: seq<Peak>)
    requires Draws(draws) && |tiers| == |draws| && IsShuffle(shuffle, |draws| + 1)
    ensures fresh(peakInterval) && |peakInterval| == |Lengths(draws)| == |shuffle|
    ensures LaidOut(peakInterval, Shuffled(Lengths(draws), shuffle), now, |peakInterval|)
    ensures forall i :: 0 <= i < |peakInterval| ==> peakInterval[i].peakTier == (tiers + [Low])[shuffle[i]]
  {
    var peaks := DrawPeaks(draws, tiers);
    peakInterval := Shuffled(peaks, shuffle);
    ghost var hours := Shuffled(Lengths(draws), shuffle);
    assert Distinct(peakInterval);
    LayOut(peakInterval, now, hours);
  }

  // ---------- The day ----------

  lemma {:induction false} SumBounds(s: seq<int>, lo: int, hi: int)
    requires forall i :: 0 <= i < |s| ==> lo <= s[i] <= hi
    ensures lo * |s| <= TotalHours(s) <= hi * |s|
  {
    if s != [] {
      SumBounds(s[..|s| - 1], lo, hi);
      assert lo * |s| == lo * (|s| - 1) + lo && hi * |s| == hi * (|s| - 1) + hi;
    }
  }

  lemma {:induction false} SumOfMore(a: seq<int>, b: seq<int>)
    ensures TotalHours(a + b) == TotalHours(a) + TotalHours(b)
  {
    if b == [] {
      assert a + b == a;
    } else {
      SumOfMore(a, b[..|b| - 1]);
      assert (a + b)[..|a + b| - 1] == a + b[..|b| - 1];
    }
  }

  /** Taking out the position a shuffle puts last leaves a shuffle of the rest. */
  function DropPosition(order: seq<nat>, p: nat): (r: seq<nat>)
    requires forall i :: 0 <= i < |order| ==> order[i] != p
    ensures |r| == |order|
    ensures forall i :: 0 <= i < |order| ==> r[i] == if order[i] < p then order[i] else order[i] - 1
  {
    seq(|order|, i requires 0 <= i < |order| => if order[i] < p then order[i] else order[i] - 1)
  }

  lemma SumOfOne(x: int)
    ensures TotalHours([x]) == x
  {
    assert [x][..0] == [];
  }

  lemma SumBetween(a: seq<int>, x: int, b: seq<int>)
    ensures TotalHours(a + [x] + b) == TotalHours(a + b) + x
  {
    SumOfMore(a + [x], b);
    SumOfMore(a, [x]);
    SumOfOne(x);
    SumOfMore(a, b);
  }

  lemma {:induction false} ShuffleKeepsSum(s: seq<int>, order: seq<nat>)
    requires IsShuffle(order, |s|)
    ensures TotalHours(Shuffled(s, order)) == TotalHours(s)
    decreases |s|
  {
    if s != [] {
      var n := |s| - 1;
      var p := order[n];
      var rest := s[..p] + s[p + 1..];
      var restOrder := DropPosition(order[..n], p);
      assert IsShuffle(restOrder, n);
      ShuffleKeepsSum(rest, restOrder);
      assert Shuffled(s, order)[..n] == Shuffled(rest, restOrder);
      assert s == s[..p] + [s[p]] + s[p + 1..];
      SumBetween(s[..p], s[p], s[p + 1..]);
    }
  }

  lemma {:induction false} PrefixesGrow(hours: seq<int>, i: nat, j: nat)
    requires forall k :: 0 <= k < |hours| ==> hours[k] >= 1
    requires i <= j <= |hours|
    ensures TotalHours(hours[..i]) + (j - i) <= TotalHours(hours[..j])
    decreases j
  {
    if i < j {
      PrefixesGrow(hours, i, j - 1);
      assert hours[..j][..j - 1] == hours[..j - 1];
    }
  }

  /** Whatever is drawn and however it is shuffled, every length is positive and they fill 24 hours. */
  lemma DayIsFilled(draws: seq<int>, shuffle: seq<nat>)
    requires Draws(draws) && IsShuffle(shuffle, |draws| + 1)
    ensures var hours := Shuffled(Lengths(draws), shuffle);
            && TotalHours(hours) == 24
            && (forall k :: 0 <= k < |hours| ==> 1 <= hours[k] <= 13)
  {
    SumBounds(draws, 1, 2);
    SumOfMore(draws, [24 - TotalHours(draws)]);
    assert [24 - TotalHours(draws)][..0] == [];
    ShuffleKeepsSum(Lengths(draws), shuffle);
  }

  /** Where a stretch of the day lies. */
  ghost predicate Within(hours: seq<int>, now: int, i: int, t: int) {
    0 <= i < |hours| && At(hours, now, i) <= t < At(hours, now, i + 1)
  }

  lemma {:induction false} FindStretch(hours: seq<int>, now: int, n: nat, t: int) returns (i: nat)
    requires n <= |hours| && now <= t < At(hours, now, n)
    ensures i < n && Within(hours, now, i, t)
    decreases n
  {
    assert n > 0;
    assert hours[..n][..n - 1] == hours[..n - 1];
    if t < At(hours, now, n - 1) {
      i := FindStretch(hours, now, n - 1, t);
    } else {
      i := n - 1;
    }
  }

  ghost predicate AllPositive(hours: seq<int>) {
    forall k :: 0 <= k < |hours| ==> hours[k] >= 1
  }

  lemma WithinOne(hours: seq<int>, now: int, i: int, j: int, t: int)
    requires AllPositive(hours) && Within(hours, now, i, t) && Within(hours, now, j, t)
    ensures i == j
  {
    if i + 1 <= j {
      PrefixesGrow(hours, i + 1, j);
    }
    if j + 1 <= i {
      PrefixesGrow(hours, j + 1, i);
    }
  }

  lemma WithinDay(hours: seq<int>, now: int, i: int, t: int)
    requires AllPositive(hours) && Within(hours, now, i, t)
    ensures now <= t < now + TotalHours(hours) * HOUR
  {
    assert hours[..|hours|] == hours;
    PrefixesGrow(hours, 0, i);
    PrefixesGrow(hours, i + 1, |hours|);
  }

  /** Every instant of the next 24 hours lies in exactly one peak, and no other instant lies in any. */
  lemma EveryInstantOnce(draws: seq<int>, shuffle: seq<nat>, now: int, t: int)
    requires Draws(draws) && IsShuffle(shuffle, |draws| + 1)
    ensures var hours := Shuffled(Lengths(draws), shuffle);
            && (now <= t < now + 86_400_000 <==> exists i :: Within(hours, now, i, t))
            && (forall i, j :: Within(hours, now, i, t) && Within(hours, now, j, t) ==> i == j)
  {
    var hours := Shuffled(Lengths(draws), shuffle);
    DayIsFilled(draws, shuffle);
    if now <= t < now + 24 * HOUR {
      assert hours[..|hours|] == hours;
      var _ := FindStretch(hours, now, |hours|, t);
    }
    forall i | Within(hours, now, i, t) ensures now <= t < now + 24 * HOUR
    {
      WithinDay(hours, now, i, t);
    }
    forall i, j | Within(hours, now, i, t) && Within(hours, now, j, t) ensures i == j
    {
      WithinOne(hours, now, i, j, t);
    }
  }
}
