/** The paired bootstrap verdict and the Pareto frontier of `doless.py`, over real numbers. */
module PairedInference {
  import opened Lists

  // ---------------------------------------------------------------- sorting and counting

  ghost predicate Sorted(s: seq<real>) {
    forall i, j :: 0 <= i < j < |s| ==> s[i] <= s[j]
  }

  function CountBelow(s: seq<real>, bound: real): (n: nat)
    ensures n <= |s|
  {
    if s == [] then 0 else CountBelow(s[1..], bound) + if s[0] < bound then 1 else 0
  }

  function Insert(x: real, s: seq<real>): (r: seq<real>)
    ensures |r| == |s| + 1 && multiset(r) == multiset(s) + multiset{x}
  {
    if s == [] || x <= s[0] then [x] + s
    else
      assert s == [s[0]] + s[1..];
      [s[0]] + Insert(x, s[1..])
  }

  /** `values.sort()`: all a caller can see of it is that the result is a sorted permutation. */
  function SortValues(s: seq<real>): (r: seq<real>)
    ensures |r| == |s| && multiset(r) == multiset(s)
  {
    if s == [] then []
    else
      assert s == [s[0]] + s[1..];
      Insert(s[0], SortValues(s[1..]))
  }

  lemma {:induction false} InsertSorts(x: real, s: seq<real>)
    requires Sorted(s)
    ensures Sorted(Insert(x, s))
  {
    if s != [] && x > s[0] {
      InsertSorts(x, s[1..]);
      var tail := Insert(x, s[1..]);
      forall j | 0 <= j < |tail|
        ensures s[0] <= tail[j]
      {
        assert tail[j] in multiset(tail);
        assert tail[j] == x || tail[j] in multiset(s[1..]);
      }
    }
  }

  lemma {:induction false} SortSorts(s: seq<real>)
    ensures Sorted(SortValues(s))
  {
    if s != [] {
      SortSorts(s[1..]);
      InsertSorts(s[0], SortValues(s[1..]));
    }
  }

  lemma {:induction false} InsertCounts(x: real, s: seq<real>, bound: real)
    ensures CountBelow(Insert(x, s), bound) == CountBelow(s, bound) + if x < bound then 1 else 0
  {
    if s == [] || x <= s[0] {
      assert ([x] + s)[1..] == s;
    } else {
      InsertCounts(x, s[1..], bound);
      assert ([s[0]] + Insert(x, s[1..]))[1..] == Insert(x, s[1..]);
    }
  }

  lemma {:induction false} SortCounts(s: seq<real>, bound: real)
    ensures CountBelow(SortValues(s), bound) == CountBelow(s, bound)
  {
    if s != [] {
      SortCounts(s[1..], bound);
      InsertCounts(s[0], SortValues(s[1..]), bound);
    }
  }

  /** In a sorted list the element at a rank is below a bound exactly when more elements than that rank are. */
  lemma {:induction false} RankCounts(s: seq<real>, k: nat, bound: real)
    requires Sorted(s) && k < |s|
    ensures s[k] < bound <==> CountBelow(s, bound) > k
  {
    if k > 0 {
      RankCounts(s[1..], k - 1, bound);
      assert s[0] <= s[k];
    } else if s[0] >= bound {
      NoneBelow(s, bound);
    }
  }

  lemma {:induction false} NoneBelow(s: seq<real>, bound: real)
    ensures CountBelow(s, bound) == 0 <==> forall i :: 0 <= i < |s| ==> s[i] >= bound
  {
    if s != [] {
      NoneBelow(s[1..], bound);
      assert s == [s[0]] + s[1..];
      assert (forall i :: 0 <= i < |s| ==> s[i] >= bound) ==> forall i :: 0 <= i < |s[1..]| ==>
          s[1..][i] == s[i + 1] && s[i + 1] >= bound;
    }
  }

  lemma {:induction false} AllBelow(s: seq<real>, bound: real)
    requires forall i :: 0 <= i < |s| ==> s[i] < bound
    ensures CountBelow(s, bound) == |s|
  {
    if s != [] {
      AllBelow(s[1..], bound);
    }
  }

  // ---------------------------------------------------------------- resampled means

  function Sum(s: seq<real>): (r: real) {
    if s == [] then 0.0 else s[0] + Sum(s[1..])
  }

  /** The sum of two lists is that of both together, and one value is its own sum. */
  lemma {:induction false} SumConcat(a: seq<real>, b: seq<real>)
    ensures Sum(a + b) == Sum(a) + Sum(b) && (|a| == 1 ==> Sum(a) == a[0])
  {
    if a == [] {
      assert a + b == b;
    } else {
      assert (a + b)[1..] == a[1..] + b;
      SumConcat(a[1..], b);
    }
  }

  /** As many times the mean as there are values is their sum. */
  function Mean(s: seq<real>): (r: real)
    requires s != []
    ensures r * (|s| as real) == Sum(s)
  {
    Sum(s) / (|s| as real)
  }

  lemma {:induction false} SumBelow(s: seq<real>, bound: real)
    requires s != [] && forall i :: 0 <= i < |s| ==> s[i] < bound
    ensures Sum(s) < bound * (|s| as real)
  {
    if |s| > 1 {
      SumBelow(s[1..], bound);
      assert bound * (|s| as real) == bound + bound * ((|s| - 1) as real);
    }
  }

  lemma {:induction false} SumAtLeast(s: seq<real>, bound: real)
    requires forall i :: 0 <= i < |s| ==> s[i] >= bound
    ensures Sum(s) >= bound * (|s| as real)
  {
    if s != [] {
      SumAtLeast(s[1..], bound);
      assert bound * (|s| as real) == bound + bound * ((|s| - 1) as real);
    }
  }

  lemma Divide(sum: real, bound: real, n: real)
    requires n > 0.0
    ensures sum < bound * n <==> sum / n < bound
  {
    assert sum == (sum / n) * n;
    if sum / n < bound {
      assert (bound - sum / n) * n > 0.0;
    } else {
      assert (sum / n - bound) * n >= 0.0;
    }
  }

  lemma MeanBelow(s: seq<real>, bound: real)
    requires s != []
    ensures (forall i :: 0 <= i < |s| ==> s[i] < bound) ==> Mean(s) < bound
    ensures (forall i :: 0 <= i < |s| ==> s[i] >= bound) ==> Mean(s) >= bound
  {
    Divide(Sum(s), bound, |s| as real);
    if forall i :: 0 <= i < |s| ==> s[i] < bound {
      SumBelow(s, bound);
    }
    if forall i :: 0 <= i < |s| ==> s[i] >= bound {
      SumAtLeast(s, bound);
    }
  }

  // ---------------------------------------------------------------- the verdict

  datatype Arm = Arm(unknownCostCount: nat, passes: nat)

  /** One admitted task: both arms, and candidate minus baseline in success fraction and in cost. */
  datatype Task = Task(baseline: Arm, candidate: Arm, quality: real, cost: real)

  datatype Reason = PartialCohort | FewerThanTwoTasks | UnknownCost | NoPass

  datatype Status = QualityRegression | Supported | Inconclusive

  datatype Inference = NotComputable(reason: Reason) | Computed(status: Status, quality: Interval, cost: Interval)

  datatype Interval = Interval(lower: real, upper: real)

  const SAMPLES := 5000

  /** The list positions of the percentiles. */
  const LOW := ((SAMPLES - 1) as real * 0.025).Floor
  const HIGH := ((SAMPLES - 1) as real * 0.975).Floor

  /** What the random generator answers: for each resample, one task for each task. */
  predicate Draws(draws: seq<seq<nat>>, n: nat) {
    |draws| == SAMPLES && forall i :: 0 <= i < |draws| ==> |draws[i]| == n && forall k :: 0 <= k < n ==> draws[i][k] < n
  }

  function Picked(values: seq<real>, draw: seq<nat>): (r: seq<real>)
    requires |draw| == |values| && forall k :: 0 <= k < |draw| ==> draw[k] < |values|
    ensures |r| == |draw| && forall k :: 0 <= k < |r| ==> r[k] == values[draw[k]]
  {
    seq(|draw|, k requires 0 <= k < |draw| => values[draw[k]])
  }

  /** The resampled means of one measure. */
  function Means(values: seq<real>, draws: seq<seq<nat>>): (r: seq<real>)
    requires values != [] && Draws(draws, |values|)
    ensures |r| == SAMPLES && forall i :: 0 <= i < SAMPLES ==> r[i] == Mean(Picked(values, draws[i]))
  {
    seq(SAMPLES, i requires 0 <= i < SAMPLES => Mean(Picked(values, draws[i])))
  }

  function Qualities(tasks: seq<Task>): (r: seq<real>)
    ensures |r| == |tasks| && forall i :: 0 <= i < |r| ==> r[i] == tasks[i].quality
  {
    seq(|tasks|, i requires 0 <= i < |tasks| => tasks[i].quality)
  }

  function Costs(tasks: seq<Task>): (r: seq<real>)
    ensures |r| == |tasks| && forall i :: 0 <= i < |r| ==> r[i] == tasks[i].cost
  {
    seq(|tasks|, i requires 0 <= i < |tasks| => tasks[i].cost)
  }

  /** `interval`. */
  function IntervalOf(values: seq<real>): (r: Interval)
    requires |values| == SAMPLES
  {
    var sorted := SortValues(values);
    Interval(sorted[LOW], sorted[HIGH])
  }

  /** The interval's ends against a bound, as counts of the values themselves. */
  lemma IntervalCounts(values: seq<real>, bound: real)
    requires |values| == SAMPLES
    ensures IntervalOf(values).upper < bound <==> CountBelow(values, bound) >= 4875
    ensures IntervalOf(values).lower >= bound <==> CountBelow(values, bound) <= 124
    ensures IntervalOf(values).lower <= IntervalOf(values).upper
  {
    var sorted := SortValues(values);
    SortSorts(values);
    SortCounts(values, bound);
    RankCounts(sorted, LOW, bound);
    RankCounts(sorted, HIGH, bound);
  }

  /** The verdict by counting, without percentiles: a regression when at least 4875 of the 5000 quality means lie
      below the margin; support when at least 4875 cost means lie below the gain and at most 124 quality means lie
      below the margin. */
  function Counted(quality: seq<real>, cost: seq<real>, gain: real, margin: real): (s: Status) {
    if CountBelow(quality, -margin) >= 4875 then QualityRegression
    else if CountBelow(cost, -gain) >= 4875 && CountBelow(quality, -margin) <= 124 then Supported
    else Inconclusive
  }

  function EligibleArm(a: Arm): (r: Option<Reason>) {
    if a.unknownCostCount > 0 then Some(UnknownCost) else if a.passes == 0 then Some(NoPass) else None
  }

  ghost predicate Eligible(tasks: seq<Task>, partialCohort: bool) {
    && !partialCohort && |tasks| >= 2
    && forall i :: 0 <= i < |tasks| ==> BothEligible(tasks[i])
  }

  /** Nothing is computed for this reason: a partial cohort before too few tasks, and these before the first arm, task
      by task and baseline first, with an unknown cost or else without a pass. */
  ghost predicate RefusedFor(tasks: seq<Task>, partialCohort: bool, reason: Reason) {
    if partialCohort then reason == PartialCohort
    else if |tasks| < 2 then reason == FewerThanTwoTasks
    else exists i :: 0 <= i < |tasks| && FirstIneligible(tasks, i, reason)
  }

  ghost predicate FirstIneligible(tasks: seq<Task>, i: nat, reason: Reason)
    requires i < |tasks|
  {
    && (forall k :: 0 <= k < i ==> BothEligible(tasks[k]))
    && !BothEligible(tasks[i])
    && var arm := if GoodArm(tasks[i].baseline) then tasks[i].candidate else tasks[i].baseline;
       reason == if arm.unknownCostCount > 0 then UnknownCost else NoPass
  }

  ghost predicate GoodArm(a: Arm) {
    a.unknownCostCount == 0 && a.passes > 0
  }

  ghost predicate BothEligible(t: Task) {
    GoodArm(t.baseline) && GoodArm(t.candidate)
  }

  /** The reason, if any, why nothing is computed. */
  method Refusal(tasks: seq<Task>, partialCohort: bool) returns (reason: Option<Reason>)
    ensures reason.None? <==> Eligible(tasks, partialCohort)
    ensures reason.Some? ==> RefusedFor(tasks, partialCohort, reason.value)
  {
    reason := if partialCohort then Some(PartialCohort) else if |tasks| < 2 then Some(FewerThanTwoTasks) else None;
    var i := 0;
    while reason.None? && i < |tasks|
      invariant 0 <= i <= |tasks|
      invariant reason.None? ==> !partialCohort && |tasks| >= 2
      invariant reason.None? ==> forall k :: 0 <= k < i ==> BothEligible(tasks[k])
      invariant reason.Some? ==> !Eligible(tasks, partialCohort) && RefusedFor(tasks, partialCohort, reason.value)
    {
      reason := EligibleArm(tasks[i].baseline);
      if reason.None? {
        reason := EligibleArm(tasks[i].candidate);
      }
      assert reason.Some? ==> FirstIneligible(tasks, i, reason.value);
      i := i + 1;
    }
  }

  /** The resampling loop. */
  method Resample(tasks: seq<Task>, draws: seq<seq<nat>>) returns (quality: seq<real>, cost: seq<real>)
    requires tasks != [] && Draws(draws, |tasks|)
    ensures quality == Means(Qualities(tasks), draws) && cost == Means(Costs(tasks), draws)
  {
    quality, cost := [], [];
    for n := 0 to SAMPLES
      invariant |quality| == |cost| == n
      invariant forall k :: 0 <= k < n ==> quality[k] == Means(Qualities(tasks), draws)[k]
      invariant forall k :: 0 <= k < n ==> cost[k] == Means(Costs(tasks), draws)[k]
    {
      quality := quality + [Mean(Picked(Qualities(tasks), draws[n]))];
      cost := cost + [Mean(Picked(Costs(tasks), draws[n]))];
    }
  }

  /** The branches on the interval ends amount to counting. */
  method Judge(quality: seq<real>, cost: seq<real>, gain: real, margin: real) returns (r: Inference)
    requires |quality| == |cost| == SAMPLES
    ensures r == Computed(Counted(quality, cost, gain, margin), IntervalOf(quality), IntervalOf(cost))
  {
    var q, c := IntervalOf(quality), IntervalOf(cost);
    IntervalCounts(quality, -margin);
    IntervalCounts(cost, -gain);
    if q.upper < -margin {
      return Computed(QualityRegression, q, c);
    } else if c.upper < -gain && q.lower >= -margin {
      return Computed(Supported, q, c);
    }
    return Computed(Inconclusive, q, c);
  }

  /** `paired_task_inference` for every task list and every sequence of draws: computed exactly for eligible tasks,
      with the verdict that counting the resampled means gives. */
  method Infer(tasks: seq<Task>, gain: real, margin: real, partialCohort: bool, draws: seq<seq<nat>>)
    returns (r: Inference)
    requires Draws(draws, |tasks|)
    ensures r.Computed? <==> Eligible(tasks, partialCohort)
    ensures r.NotComputable? ==> RefusedFor(tasks, partialCohort, r.reason)
    ensures r.Computed? ==>
              && r.status == Counted(Means(Qualities(tasks), draws), Means(Costs(tasks), draws), gain, margin)
              && r.quality == IntervalOf(Means(Qualities(tasks), draws))
              && r.cost == IntervalOf(Means(Costs(tasks), draws))
  {
    var reason := Refusal(tasks, partialCohort);
    if reason.Some? {
      return NotComputable(reason.value);
    }
    var quality, cost := Resample(tasks, draws);
    r := Judge(quality, cost, gain, margin);
  }

  // ---------------------------------------------------------------- what a verdict means

  lemma MeansBelow(values: seq<real>, draws: seq<seq<nat>>, bound: real)
    requires values != [] && Draws(draws, |values|)
    ensures (forall i :: 0 <= i < |values| ==> values[i] < bound) ==> CountBelow(Means(values, draws), bound) == SAMPLES
    ensures (forall i :: 0 <= i < |values| ==> values[i] >= bound) ==> CountBelow(Means(values, draws), bound) == 0
  {
    var means := Means(values, draws);
    forall i | 0 <= i < SAMPLES
      ensures (forall i :: 0 <= i < |values| ==> values[i] < bound) ==> means[i] < bound
      ensures (forall i :: 0 <= i < |values| ==> values[i] >= bound) ==> means[i] >= bound
    {
      MeanBelow(Picked(values, draws[i]), bound);
    }
    if forall i :: 0 <= i < |values| ==> values[i] < bound {
      AllBelow(means, bound);
    }
    NoneBelow(means, bound);
  }

  /** Whatever is drawn: when every task gets cheaper by more than the gain and none regresses past the margin, the
      verdict is supported. */
  lemma UniformGainIsSupported(tasks: seq<Task>, draws: seq<seq<nat>>, gain: real, margin: real)
    requires |tasks| >= 2 && Draws(draws, |tasks|)
    requires forall i :: 0 <= i < |tasks| ==> tasks[i].cost < -gain && tasks[i].quality >= -margin
    ensures Counted(Means(Qualities(tasks), draws), Means(Costs(tasks), draws), gain, margin) == Supported
  {
    MeansBelow(Costs(tasks), draws, -gain);
    MeansBelow(Qualities(tasks), draws, -margin);
  }

  /** Whatever is drawn: a regression verdict needs a task that regressed past the margin, and support needs a task
      that got cheaper by more than the gain; when all regress, the verdict is a regression. */
  lemma VerdictNeedsWitness(tasks: seq<Task>, draws: seq<seq<nat>>, gain: real, margin: real)
    requires |tasks| >= 2 && Draws(draws, |tasks|)
    ensures var s := Counted(Means(Qualities(tasks), draws), Means(Costs(tasks), draws), gain, margin);
            && (s == QualityRegression ==> exists i :: 0 <= i < |tasks| && tasks[i].quality < -margin)
            && (s == Supported ==> exists i :: 0 <= i < |tasks| && tasks[i].cost < -gain)
            && (s == Supported ==> exists i :: 0 <= i < |tasks| && tasks[i].quality >= -margin)
            && ((forall i :: 0 <= i < |tasks| ==> tasks[i].quality < -margin) ==> s == QualityRegression)
  {
    MeansBelow(Costs(tasks), draws, -gain);
    MeansBelow(Qualities(tasks), draws, -margin);
    assert forall i :: 0 <= i < |tasks| ==> Qualities(tasks)[i] == tasks[i].quality && Costs(tasks)[i] == tasks[i].cost;
  }

  lemma {:induction false} CountMonotone(s: seq<real>, low: real, high: real)
    requires low <= high
    ensures CountBelow(s, low) <= CountBelow(s, high)
  {
    if s != [] {
      CountMonotone(s[1..], low, high);
    }
  }

  /** A smaller gain asked for or a wider margin allowed never takes support away. */
  lemma SupportIsMonotone(quality: seq<real>, cost: seq<real>, gain: real, gain': real, margin: real, margin': real)
    requires gain' <= gain && margin <= margin'
    ensures Counted(quality, cost, gain, margin) == Supported ==> Counted(quality, cost, gain', margin') == Supported
  {
    CountMonotone(cost, -gain, -gain');
    CountMonotone(quality, -margin', -margin);
  }

  // ---------------------------------------------------------------- the frontier

  datatype Cell = Cell(passRate: Option<real>, costMean: Option<real>, frontier: Option<bool>)

  predicate Placed(c: Cell) {
    c.passRate.Some? && c.costMean.Some?
  }

  /** At least as good on both, strictly better on one. */
  predicate Dominates(o: Cell, c: Cell) {
    && Placed(o) && Placed(c) && o.passRate.value >= c.passRate.value && o.costMean.value <= c.costMean.value
    && (o.passRate.value > c.passRate.value || o.costMean.value < c.costMean.value)
  }

  /** At least as good on both counts. */
  predicate NoWorse(o: Cell, c: Cell) {
    Placed(o) && Placed(c) && o.passRate.value >= c.passRate.value && o.costMean.value <= c.costMean.value
  }

  /** An arm dominates another exactly when it is no worse and the other one is. */
  lemma DominatesExactly(o: Cell, c: Cell)
    ensures Dominates(o, c) <==> NoWorse(o, c) && !NoWorse(c, o)
  {
  }

  function Dominators(arms: map<string, Cell>, c: Cell): (r: set<string>) {
    set a | a in arms && Dominates(arms[a], c)
  }

  /** `mark_frontier`: marks exactly the placed arms nobody dominates, and changes nothing else. */
  method MarkFrontier(arms: map<string, Cell>) returns (marked: map<string, Cell>)
    ensures marked.Keys == arms.Keys
    ensures forall a :: a in arms ==> marked[a] == arms[a].(frontier := marked[a].frontier)
    ensures forall a :: a in arms ==> (marked[a].frontier.Some? <==> Placed(arms[a]))
    ensures forall a :: a in arms && Placed(arms[a]) ==>
              (marked[a].frontier == Some(true) <==> Dominators(arms, arms[a]) == {})
    ensures forall a :: a in arms && marked[a].frontier == Some(false) ==>
              exists b :: b in arms && marked[b].frontier == Some(true) && Dominates(arms[b], arms[a])
  {
    marked := arms;
    var todo := arms.Keys;
    while todo != {}
      invariant todo <= arms.Keys && marked.Keys == arms.Keys
      invariant forall a :: a in arms ==> marked[a] == arms[a].(frontier := marked[a].frontier)
      invariant forall a :: a in arms && a !in todo ==>
                  marked[a].frontier == if Placed(arms[a]) then Some(Dominators(arms, arms[a]) == {}) else None
      decreases todo
    {
      var arm :| arm in todo;
      var cell := arms[arm];
      if !Placed(cell) {
        marked := marked[arm := cell.(frontier := None)];
      } else {
        var dominated := exists other :: other in arms && other != arm && Dominates(arms[other], cell);
        assert dominated <==> Dominators(arms, cell) != {} by {
          if Dominators(arms, cell) != {} {
            var o :| o in Dominators(arms, cell);
            assert o in arms && o != arm;
          }
          if dominated {
            var o :| o in arms && Dominates(arms[o], cell);
            assert o in Dominators(arms, cell);
          }
        }
        marked := marked[arm := cell.(frontier := Some(!dominated))];
      }
      todo := todo - {arm};
    }
    forall a | a in arms && marked[a].frontier == Some(false)
      ensures exists b :: b in arms && marked[b].frontier == Some(true) && Dominates(arms[b], arms[a])
    {
      var b := Best(arms, arms[a]);
    }
  }

  /** Climbing from a dominated arm ends at an undominated one that still dominates it. */
  lemma {:induction false} Best(arms: map<string, Cell>, c: Cell) returns (b: string)
    requires Dominators(arms, c) != {}
    ensures b in arms && Dominates(arms[b], c) && Dominators(arms, arms[b]) == {}
    decreases Dominators(arms, c)
  {
    var o :| o in Dominators(arms, c);
    if Dominators(arms, arms[o]) == {} {
      b := o;
    } else {
      assert Dominators(arms, arms[o]) <= Dominators(arms, c);
      assert o !in Dominators(arms, arms[o]);
      b := Best(arms, arms[o]);
    }
  }
}
