/** When the driver evaluates the policy at episode boundaries, stated from
    the lengths of the completed episodes alone. */
module EvalSchedule {
  import opened Settings
  import opened EpisodeSplit
  import opened Modular

  /** The evaluation counter right after the boundary that follows the
      completed episodes `c`: each episode adds its length, and a boundary
      at which the counter has reached `f` reduces it modulo `f`. */
  function Carry(f: Positive, c: seq<nat>): nat
    decreases |c|
  {
    if |c| == 0 then 0
    else
      var n := Carry(f, AllButLast(c)) + Last(c);
      if n >= f then n % f else n
  }

  /** The step counts at which the boundaries after the completed episodes
      `c` evaluate: the end of every episode after which the counter has
      reached `f`. */
  function PeriodicEvals(f: Positive, c: seq<nat>): (r: seq<nat>)
    ensures |r| <= |c|
    decreases |c|
  {
    if |c| == 0 then []
    else
      var n := Carry(f, AllButLast(c)) + Last(c);
      PeriodicEvals(f, AllButLast(c)) + (if n >= f then [Sum(c)] else [])
  }

  /** The counter stays congruent to the number of steps taken. */
  lemma {:induction false} CarryCongruent(f: Positive, c: seq<nat>)
    ensures Carry(f, c) % f == Sum(c) % f
    decreases |c|
  {
    if |c| > 0 {
      var p := AllButLast(c);
      CarryCongruent(f, p);
      var n := Carry(f, p) + Last(c);
      ModAdd(Carry(f, p), Sum(p), Last(c), f);
      if n >= f {
        ModReduce(n, f);
      }
    }
  }

  /** Every periodic evaluation used up `f` of the steps taken. */
  lemma {:induction false} PeriodicBudget(f: Positive, c: seq<nat>)
    ensures |PeriodicEvals(f, c)| * f + Carry(f, c) <= Sum(c)
    decreases |c|
  {
    if |c| > 0 {
      var p := AllButLast(c);
      PeriodicBudget(f, p);
      var n := Carry(f, p) + Last(c);
      var k := |PeriodicEvals(f, p)|;
      assert Sum(c) == Sum(p) + Last(c);
      if n >= f {
        assert |PeriodicEvals(f, c)| == k + 1 && Carry(f, c) == n % f;
        BudgetStep(k, f, Carry(f, p), Last(c), Sum(p));
      } else {
        assert |PeriodicEvals(f, c)| == k && Carry(f, c) == n;
      }
    }
  }

  lemma BudgetStep(k: nat, f: Positive, carry: nat, last: nat, sum: nat)
    requires k * f + carry <= sum && carry + last >= f
    ensures (k + 1) * f + (carry + last) % f <= sum + last
  {
    ModReduce(carry + last, f);
    assert (k + 1) * f == k * f + f;
  }

  /** No due evaluation is skipped: when every completed episode is at
      least `f` steps long, every one of their ends is evaluated. */
  lemma {:induction false} PeriodicEvalsLongEpisodes(f: Positive, c: seq<nat>)
    requires forall k :: 0 <= k < |c| ==> c[k] >= f
    ensures PeriodicEvals(f, c) == PrefixSums(c)
    decreases |c|
  {
    if |c| > 0 {
      var p := AllButLast(c);
      assert forall k :: 0 <= k < |p| ==> p[k] == c[k];
      PeriodicEvalsLongEpisodes(f, p);
    }
  }

  /** Periodic evaluations are in increasing order of step count, each at
      the end of a completed episode. */
  lemma {:induction false} PeriodicEvalsAtEnds(f: Positive, c: seq<nat>)
    requires forall k :: 0 <= k < |c| ==> c[k] > 0
    ensures forall i, j :: 0 <= i < j < |PeriodicEvals(f, c)| ==>
      PeriodicEvals(f, c)[i] < PeriodicEvals(f, c)[j]
    ensures forall i :: 0 <= i < |PeriodicEvals(f, c)| ==> PeriodicEvals(f, c)[i] <= Sum(c)
    decreases |c|
  {
    if |c| > 0 {
      var p := AllButLast(c);
      assert forall k :: 0 <= k < |p| ==> p[k] == c[k];
      PeriodicEvalsAtEnds(f, p);
      assert Sum(c) == Sum(p) + Last(c);
    }
  }
}
