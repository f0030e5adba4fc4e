/** Reference definitions computed from the environment's done flags alone,
    independently of the driver's counters: how the steps taken so far split
    into episodes, and where each step sits inside its episode. */
module EpisodeSplit {

  function Sum(s: seq<nat>): nat
  {
    if |s| == 0 then 0 else Sum(s[..|s|-1]) + s[|s|-1]
  }

  function Last<T>(s: seq<T>): T
    requires |s| > 0
  {
    s[|s|-1]
  }

  function AllButLast<T>(s: seq<T>): seq<T>
    requires |s| > 0
  {
    s[..|s|-1]
  }

  /** The lengths of the episodes that the done flags `d` of the steps taken
      so far mark out: a new episode starts at the first step and after every
      step whose done flag is set. The last entry is the current episode,
      which may still be running. */
  function Episodes(d: seq<bool>): (e: seq<nat>)
    ensures |e| <= |d|
    ensures |e| == 0 <==> |d| == 0
    decreases |d|
  {
    if |d| == 0 then []
    else
      var prev := Episodes(d[..|d|-1]);
      if |d| == 1 || d[|d|-2] then prev + [1]
      else prev[..|prev|-1] + [prev[|prev|-1] + 1]
  }

  /** No episode is empty: every entry counts at least the step that
      opened it. */
  lemma {:induction false} EpisodesPositive(d: seq<bool>)
    ensures forall k :: 0 <= k < |Episodes(d)| ==> 0 < Episodes(d)[k]
    decreases |d|
  {
    if |d| > 0 {
      var prev := Episodes(d[..|d|-1]);
      EpisodesPositive(d[..|d|-1]);
      var e := Episodes(d);
      if |d| == 1 || d[|d|-2] {
        assert forall k :: 0 <= k < |prev| ==> e[k] == prev[k];
      } else {
        var n := |prev|;
        assert forall k :: 0 <= k < n - 1 ==> e[k] == prev[k];
      }
    }
  }

  /** The step counts at which each of the episodes `c` ends: entry k is
      the total length of episodes 0 to k. */
  function PrefixSums(c: seq<nat>): (r: seq<nat>)
    ensures |r| == |c|
  {
    if |c| == 0 then [] else PrefixSums(AllButLast(c)) + [Sum(c)]
  }

  lemma {:induction false} PrefixSumsAt(c: seq<nat>, k: nat)
    requires k < |c|
    ensures PrefixSums(c)[k] == Sum(c[..k+1])
    decreases |c|
  {
    var n := |c|;
    if k < n - 1 {
      PrefixSumsAt(AllButLast(c), k);
      assert AllButLast(c)[..k+1] == c[..k+1];
    } else {
      assert c[..k+1] == c;
    }
  }

  /** How many steps of its episode precede step `i`. */
  function Offset(d: seq<bool>, i: nat): (r: nat)
    requires i < |d|
    ensures r <= i
  {
    if i == 0 || d[i-1] then 0 else Offset(d, i-1) + 1
  }

  /** The offset is the distance back to the most recent step whose done
      flag is set, or to the first step when there is none. */
  lemma {:induction false} OffsetIsDistanceToLastDone(d: seq<bool>, i: nat)
    requires i < |d|
    ensures Offset(d, i) < i ==> d[i - Offset(d, i) - 1]
    ensures forall k :: i - Offset(d, i) <= k < i ==> !d[k]
    decreases i
  {
    if i > 0 && !d[i-1] {
      OffsetIsDistanceToLastDone(d, i - 1);
    }
  }

  /** Every step belongs to exactly one episode: the episode lengths add up
      to the number of steps taken. */
  lemma {:induction false} EpisodesCover(d: seq<bool>)
    ensures Sum(Episodes(d)) == |d|
    decreases |d|
  {
    if |d| > 0 {
      var d' := d[..|d|-1];
      var prev := Episodes(d');
      EpisodesCover(d');
      if |d| == 1 || d[|d|-2] {
        assert (prev + [1])[..|prev|] == prev;
      } else {
        var n := |prev|;
        var e := prev[..n-1] + [prev[n-1] + 1];
        assert e[..n-1] == prev[..n-1];
        assert Sum(prev) == Sum(prev[..n-1]) + prev[n-1];
      }
    }
  }

  /** The current episode's length after step `i` is one more than the
      number of its steps that precede step `i`. */
  lemma {:induction false} EpisodesLastOffset(d: seq<bool>, i: nat)
    requires i < |d|
    ensures Last(Episodes(d[..i+1])) == Offset(d, i) + 1
    decreases i
  {
    assert d[..i+1][..i] == d[..i];
    if i > 0 {
      assert d[..i+1][i-1] == d[i-1];
      if !d[i-1] {
        EpisodesLastOffset(d, i-1);
      }
    }
  }

  /** Episode lengths depend only on the steps taken so far: one more step
      either opens a new episode of length one after a done flag, or extends
      the current one. */
  lemma EpisodesSnoc(d: seq<bool>, t: nat)
    requires t < |d|
    ensures t == 0 ==> Episodes(d[..t+1]) == [1]
    ensures t > 0 && d[t-1] ==> Episodes(d[..t+1]) == Episodes(d[..t]) + [1]
    ensures t > 0 && !d[t-1] ==>
      Episodes(d[..t+1]) == AllButLast(Episodes(d[..t])) + [Last(Episodes(d[..t])) + 1]
  {
    assert d[..t+1][..t] == d[..t];
    if t > 0 {
      assert d[..t+1][t-1] == d[t-1];
    }
  }

  /** Prefix sums of natural numbers never decrease. */
  lemma {:induction false} SumPrefixMonotone(c: seq<nat>, i: nat, j: nat)
    requires i <= j <= |c|
    ensures Sum(c[..i]) <= Sum(c[..j])
    decreases j - i
  {
    if i < j {
      SumPrefixMonotone(c, i, j - 1);
      assert c[..j][..j-1] == c[..j-1];
    }
  }
}
