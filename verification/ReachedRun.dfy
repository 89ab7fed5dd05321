/**
 * The work loop of `run_reached.py`: a queue of plan steps executed in slot batches, alone, or
 * built first and run side by side, while the slot worker and the clock answer as they like.
 */
module ReachedRun {
  import opened Lists
  import opened BatchReply
  import opened ReachedPlan
  import ParallelRun

  datatype Status = Incomplete | Planned | Blocked | Failed | BudgetExceeded | Passed

  /** How one iteration of the loop ends; `Raise` is an exception caught around the whole run. */
  datatype Flow = Continue | Break | Raise

  /** The frozen inputs of one run; `reuse` holds the results the previous report vouches for. */
  datatype Plan = Plan(
    steps: seq<Step>, fp: Fingerprint, reuse: map<ProofKey, Result>,
    budget: real, batchMode: bool, keepGoing: bool, parallelSteps: bool, reserve: real,
    preparationSteps: set<nat>)

  /** The report and the loop's own variables. `returned` names the reused indices put back. */
  datatype State = State(
    pending: seq<nat>, completed: seq<Result>, skipped: seq<nat>,
    work: seq<Item>, built: seq<Item>, returned: seq<nat>,
    keys: seq<Option<ProofKey>>, identityComplete: bool, cleanupOnly: bool,
    status: Status, red: bool)

  datatype VitestRead = Unreadable | Evidence(v: Vitest)

  /** Everything the environment may answer during one iteration of the loop. */
  datatype Observation = Observation(
    clock: real,                 // seconds since the start, read at the top of the loop
    needsPreparation: bool,      // `_needs_studio_preparation` for the group's directory
    freeGb: Option<real>,        // `_free_memory_gb()`
    splittable: set<nat>,        // local positions whose command is a plain `cargo test`
    launchFails: bool,           // starting the child, or preparing its command, raises
    timedOut: bool,
    returncode: int,
    elapsed: real,               // seconds since the start, read when the child ended
    envelope: Option<Envelope>,  // the slot's batch telemetry
    located: set<nat>,           // indices whose executables the build log names
    sideRaises: bool,            // `_run_parallel` raises (a log file cannot be opened)
    fates: map<nat, seq<ParallelRun.Fate>>,  // what becomes of each executable of a step run side by side
    readings: seq<Option<real>>,             // free memory, read before each concurrent start
    unobservedMark: bool, pytestCommand: bool, noTestsRan: bool, ranZero: bool,
    vitest: VitestRead)

  /** The executables of a step: at least one, for a build is split only for explicit targets. */
  function Executables(o: Observation, index: nat): (fates: seq<ParallelRun.Fate>)
    ensures fates != []
  {
    if index in o.fates && o.fates[index] != [] then o.fates[index] else [ParallelRun.SpawnFails]
  }

  /** Every executable of the step spawned and exited 0. */
  predicate AllGood(o: Observation, index: nat) {
    forall k :: 0 <= k < |Executables(o, index)| ==> ParallelRun.Good(Executables(o, index)[k])
  }

  /** A job's code; a step that was not run has none. */
  function SideCode(codes: map<nat, int>, index: nat): (code: int) {
    if index in codes then codes[index] else 1
  }

  /** The codes of the steps run side by side are what `_run_parallel` makes of their executables. */
  ghost predicate Fit(ready: seq<Item>, o: Observation, codes: map<nat, int>) {
    forall i :: 0 <= i < |ready| ==> (SideCode(codes, ready[i].index) == 0 <==> AllGood(o, ready[i].index))
  }

  const PARALLEL_STEPS_CEILING := 4

  /** Memory that `n` executables at once ask for. */
  function Needed(reserve: real, n: nat): (gb: real) {
    reserve + n as real * ParallelRun.GB_PER_PARALLEL_STEP
  }

  /** `_parallel_limit`: the largest number of executables, from one to the ceiling, that free memory covers; one when
      it covers none or is unknown. */
  function ParallelLimit(freeGb: Option<real>, reserve: real): (n: nat)
    ensures 1 <= n <= PARALLEL_STEPS_CEILING
    ensures n > 1 ==> freeGb.Some? && freeGb.value >= Needed(reserve, n)
    ensures freeGb.Some? && n < PARALLEL_STEPS_CEILING ==> freeGb.value < Needed(reserve, n + 1)
  {
    if freeGb.None? then 1
    else
      var q := ((freeGb.value - reserve) / ParallelRun.GB_PER_PARALLEL_STEP).Floor;
      if q < 1 then 1 else if q > PARALLEL_STEPS_CEILING then PARALLEL_STEPS_CEILING else q
  }

  /** A finished entry that is no red: it exited 0 and only an absent observer may be its error. */
  predicate Clean(r: Result) {
    r.returncode == Some(0) && !r.zeroTests && (r.error ==> r.unobserved)
  }

  /** A finished entry that is a pass. */
  predicate Pass(r: Result) {
    r.returncode == Some(0) && !r.zeroTests && !r.error && !r.unobserved
  }

  function Reused(rs: seq<Result>): (out: seq<Result>) {
    Filter(rs, (r: Result) => r.reused)
  }

  function Fresh(rs: seq<Result>): (out: seq<Result>)
    ensures forall r :: r in out ==> r in rs
  {
    Filter(rs, (r: Result) => !r.reused)
  }

  lemma ReusedAndFresh(rs: seq<Result>)
    ensures multiset(Indices(Reused(rs))) + multiset(Indices(Fresh(rs))) == multiset(Indices(rs))
  {
    IndicesSplit(rs, (r: Result) => r.reused, (r: Result) => !r.reused);
  }

  predicate RanZeroTests(step: Step, o: Observation) {
    "-m" in step.argv && "unittest" in step.argv && o.ranZero
  }

  /** The marks a child run alone leaves on its entry, over the blank entry `r`. */
  function SingleResult(r: Result, step: Step, o: Observation): (out: Result)
    ensures out.index == r.index && out.argv == r.argv && out.cwd == r.cwd
    ensures out.proofKey == r.proofKey && out.reused == r.reused && out.reusable == r.reusable
    ensures out.returncode.Some? && out.zeroTests == RanZeroTests(step, o)
    ensures out.unobserved ==> out.error
  {
    var unobserved := o.returncode == 0 && o.unobservedMark;
    var noPytest := o.pytestCommand && (o.returncode == 5 || o.noTestsRan);
    var code := if noPytest && o.returncode == 0 then 1 else o.returncode;
    var vitest := VitestStep(step.argv, step.cwd);
    var v := if vitest && o.vitest.Evidence? then Some(o.vitest.v) else None;
    var vitestError := vitest && (o.vitest.Unreadable? || o.vitest.v.failed > 0 || o.vitest.v.errors > 0
                                  || o.vitest.v.passed == 0 || !o.vitest.v.success);
    r.(returncode := Some(code), error := unobserved || noPytest || vitestError,
       zeroTests := RanZeroTests(step, o), unobserved := unobserved, vitest := v)
  }

  datatype Verdict = Verdict(red: bool, stop: Option<Status>)

  /** What the loop does with the entry of a child run alone. */
  function SingleVerdict(r: Result, keepGoing: bool, late: bool): (v: Verdict)
    ensures v.stop.None? && !v.red && r.returncode.Some? ==> Clean(r)
    ensures v.stop.Some? ==> v.stop.value in {Failed, Incomplete, BudgetExceeded}
    ensures v.red ==> keepGoing
  {
    var vitestRed := r.error && r.vitest.Some? && r.vitest.value.failed > 0;
    if r.zeroTests then Verdict(false, Some(Incomplete))
    else if keepGoing && (r.returncode != Some(0) || vitestRed) then
      Verdict(true, if late then Some(BudgetExceeded) else None)
    else if r.returncode != Some(0) then Verdict(false, Some(Failed))
    else if r.error && !r.unobserved then Verdict(false, Some(if vitestRed then Failed else Incomplete))
    else Verdict(false, if late then Some(BudgetExceeded) else None)
  }

  // ---------------------------------------------------------------- what every step keeps

  /** Every planned index is pending, completed or skipped, exactly once in all. */
  ghost predicate Conserved(p: Plan, s: State) {
    multiset(s.pending) + multiset(Indices(s.completed)) + multiset(s.skipped) == multiset(Range(|p.steps|))
  }

  /** Every pending index waits in the queue, as a built executable, was put back, or is in hand. */
  ghost predicate Owns(s: State, inHand: multiset<nat>) {
    inHand + multiset(Queue(s.work)) + multiset(Queue(s.built)) + multiset(s.returned) == multiset(s.pending)
  }

  /** An entry carries the key of its own step; a reused one has a vouched predecessor. */
  predicate KeyedEntry(p: Plan, r: Result) {
    && r.index < |p.steps|
    && r.argv == p.steps[r.index].argv && r.cwd == p.steps[r.index].cwd
    && (r.proofKey.Some? ==> r.proofKey.value == KeyOf(p.fp, p.steps[r.index]))
    && (r.reused ==> r.proofKey.Some? && r.proofKey.value in p.reuse)
    && !r.reusable
  }

  ghost predicate KeysFit(p: Plan, s: State) {
    && |s.keys| == |p.steps|
    && forall i :: 0 <= i < |s.keys| && s.keys[i].Some? ==> s.keys[i].value == KeyOf(p.fp, p.steps[i])
  }

  ghost predicate Keyed(p: Plan, s: State) {
    KeysFit(p, s) && forall r :: r in s.completed ==> KeyedEntry(p, r)
  }

  /** No red is recorded silently. */
  ghost predicate Greens(s: State) {
    !s.red ==> forall r :: r in s.completed ==> Clean(r)
  }

  ghost predicate InRange(p: Plan, items: seq<Item>) {
    forall w :: w in items ==> w.index < |p.steps|
  }

  /** A built executable waits only while the next group is another slot batch. */
  ghost predicate BuiltWaits(p: Plan, s: State) {
    && InRange(p, s.work) && InRange(p, s.built)
    && (s.built != [] ==> s.work != [] && p.batchMode && Batchable(p.steps[s.work[0].index]))
  }

  ghost predicate Recorded(p: Plan, s: State) {
    Conserved(p, s) && Keyed(p, s)
  }

  ghost predicate Valid(p: Plan, s: State) {
    Recorded(p, s) && Owns(s, multiset{}) && Greens(s) && BuiltWaits(p, s)
  }

  /** A plain queued step counts two, a serial fallback or a built executable one. */
  function Measure(s: State): nat {
    Weight(s.work) + |s.built|
  }

  function Entry(p: Plan, s: State, index: nat, code: Option<int>, error: bool): (r: Result)
    requires index < |p.steps| && |s.keys| == |p.steps|
  {
    Result(index, p.steps[index].argv, p.steps[index].cwd, code, error, false, false, false, None, s.keys[index], false)
  }

  /** `pending.remove(index)` followed by `completed.append(r)`. */
  function Record(s: State, r: Result): (t: State) {
    s.(pending := Remove(s.pending, r.index), completed := s.completed + [r])
  }

  lemma RecordPending(p: Plan, s: State, r: Result)
    requires Recorded(p, s) && KeyedEntry(p, r) && r.index in s.pending
    ensures Recorded(p, Record(s, r))
    ensures multiset(Record(s, r).pending) == multiset(s.pending) - multiset{r.index}
  {
    RemoveCounts(s.pending, r.index);
    IndicesConcat(s.completed, [r]);
    assert Indices([r]) == [r.index];
  }

  lemma RecordKeeps(p: Plan, s: State, r: Result, inHand: multiset<nat>)
    requires Recorded(p, s) && KeyedEntry(p, r)
    requires Owns(s, inHand + multiset{r.index})
    ensures r.index in s.pending
    ensures Recorded(p, Record(s, r)) && Owns(Record(s, r), inHand)
    ensures Greens(s) && Clean(r) ==> Greens(Record(s, r))
  {
    assert r.index in multiset(s.pending);
    RecordPending(p, s, r);
  }

  lemma EntryKeyed(p: Plan, s: State, index: nat, code: Option<int>)
    requires KeysFit(p, s) && index < |p.steps|
    ensures KeyedEntry(p, Entry(p, s, index, code, false))
  {
  }

  /** A Studio preparation that appears late: reused results go back and nothing stays reusable. */
  function PutBackReused(p: Plan, s: State): (t: State) {
    var back := Indices(Reused(s.completed));
    s.(pending := s.pending + back, returned := s.returned + back, completed := Fresh(s.completed),
       keys := seq(|p.steps|, i => None), identityComplete := false, cleanupOnly := false)
  }

  lemma PutBackKeeps(p: Plan, s: State, inHand: multiset<nat>)
    requires Recorded(p, s) && Owns(s, inHand)
    ensures Recorded(p, PutBackReused(p, s)) && Owns(PutBackReused(p, s), inHand)
    ensures Greens(s) ==> Greens(PutBackReused(p, s))
    ensures var t := PutBackReused(p, s);
            && (forall i :: 0 <= i < |t.keys| ==> t.keys[i].None?) && !t.identityComplete && !t.cleanupOnly
            && (forall r :: r in t.completed <==> r in s.completed && !r.reused)
            && multiset(t.pending) == multiset(s.pending) + multiset(Indices(Reused(s.completed)))
  {
    ReusedAndFresh(s.completed);
    var t := PutBackReused(p, s);
    assert Conserved(p, t);
    assert Owns(t, inHand);
  }

  // ---------------------------------------------------------------- one child outside a batch

  datatype Outcome = Outcome(s: State, flow: Flow)

  /** Never a silent stop: a break leaves a status other than passed. */
  ghost predicate Stopped(t: Outcome) {
    t.flow.Break? ==> t.s.status in {Failed, Incomplete, BudgetExceeded}
  }

  /** A red stays, and only keep-going lets one be recorded without stopping. */
  ghost predicate RedKept(p: Plan, s: State, t: State) {
    (s.red ==> t.red) && (t.red ==> s.red || p.keepGoing)
  }

  /** From `s` to `t` the books are kept and no red is hidden; going on, every invariant holds below the bound. */
  ghost predicate Kept(p: Plan, s: State, bound: nat, t: Outcome) {
    && Recorded(p, t.s) && Stopped(t) && RedKept(p, s, t.s)
    && (t.flow.Continue? ==> Valid(p, t.s) && t.s.status == Incomplete && Measure(t.s) < bound)
  }

  function SingleStep(p: Plan, s: State, index: nat, o: Observation): (t: Outcome)
    requires index < |p.steps| && |s.keys| == |p.steps|
  {
    var r := SingleResult(Entry(p, s, index, Some(o.returncode), false), p.steps[index], o);
    var v := SingleVerdict(r, p.keepGoing, o.elapsed > p.budget);
    var t := Record(s, r).(red := s.red || v.red);
    match v.stop
    case Some(status) => Outcome(t.(status := status), Break)
    case None => Outcome(t, Continue)
  }

  /** The loop stopped with this status and no new red. */
  predicate StopsWith(s: State, t: Outcome, status: Status) {
    t.flow.Break? && t.s.status == status && t.s.red == s.red
  }

  /** A failing exit, or pytest without a test; and failing vitest tests. */
  predicate FailingExit(o: Observation) {
    o.returncode != 0 || (o.pytestCommand && o.noTestsRan)
  }

  predicate FailingTests(step: Step, o: Observation) {
    VitestStep(step.argv, step.cwd) && o.vitest.Evidence? && o.vitest.v.failed >= 1
  }

  /** What the marks of an entry say of the observation. */
  lemma SingleMarks(r: Result, step: Step, o: Observation)
    ensures var out := SingleResult(r, step, o);
            && (out.returncode != Some(0) <==> FailingExit(o))
            && (out.error && out.vitest.Some? && out.vitest.value.failed > 0 <==> FailingTests(step, o))
            && (!FailingExit(o) ==> (out.error && !out.unobserved <==> BadEvidence(step, o) && !o.unobservedMark))
  {
  }

  /** Where the loop stands after a step run alone, from what was observed: zero unittest tests stop it as incomplete;
      a failing exit or failing tests are a red under keep-going; otherwise these stop it as failed, and bad evidence
      as incomplete, though tests and evidence only where the observer was there; a late end stops it in any case. */
  lemma SingleExactly(p: Plan, s: State, index: nat, o: Observation)
    requires index < |p.steps| && |s.keys| == |p.steps|
    ensures var t, step := SingleStep(p, s, index, o), p.steps[index];
            if "-m" in step.argv && "unittest" in step.argv && o.ranZero then StopsWith(s, t, Incomplete)
            else if p.keepGoing && (FailingExit(o) || FailingTests(step, o)) then
              t.s.red && if o.elapsed > p.budget then t.flow.Break? && t.s.status == BudgetExceeded
                         else t.flow.Continue? && t.s.status == s.status
            else if FailingExit(o) then StopsWith(s, t, Failed)
            else if FailingTests(step, o) && !o.unobservedMark then StopsWith(s, t, Failed)
            else if BadEvidence(step, o) && !o.unobservedMark then StopsWith(s, t, Incomplete)
            else if o.elapsed > p.budget then StopsWith(s, t, BudgetExceeded)
            else t.flow.Continue? && t.s.status == s.status && t.s.red == s.red
  {
    SingleMarks(Entry(p, s, index, Some(o.returncode), false), p.steps[index], o);
  }

  lemma SingleRecords(p: Plan, s: State, index: nat, o: Observation)
    requires Recorded(p, s) && Owns(s, multiset{index}) && index < |p.steps|
    ensures var t := SingleStep(p, s, index, o);
            Recorded(p, t.s) && Stopped(t) && RedKept(p, s, t.s) && Owns(t.s, multiset{})
  {
    var r := SingleResult(Entry(p, s, index, Some(o.returncode), false), p.steps[index], o);
    EntryKeyed(p, s, index, Some(o.returncode));
    RecordKeeps(p, s, r, multiset{});
    var t := SingleStep(p, s, index, o).s;
    assert t == Record(s, r).(red := t.red, status := t.status);
  }

  lemma SingleContinues(p: Plan, s: State, index: nat, o: Observation)
    requires Greens(s) && BuiltWaits(p, s) && s.built == [] && s.status == Incomplete
    requires index < |p.steps| && |s.keys| == |p.steps| && SingleStep(p, s, index, o).flow.Continue?
    ensures var t := SingleStep(p, s, index, o).s;
            Greens(t) && BuiltWaits(p, t) && t.status == Incomplete && Measure(t) == Weight(s.work)
  {
  }

  // ---------------------------------------------------------------- one slot batch

  /** Local positions built with `--no-run` in this batch, to be run side by side later. */
  function Side(p: Plan, built: nat, group: seq<Item>, o: Observation): (side: set<nat>)
    ensures forall l :: l in side ==> l < |group| && !group[l].serial && l in o.splittable
  {
    var limit := if p.parallelSteps then ParallelLimit(o.freeGb, p.reserve) else 1;
    var side := set l: nat | 0 <= l < |group| && !group[l].serial && l in o.splittable;
    if p.batchMode && limit > 1 && |group| > 1 && |side| + built >= 2 then side else {}
  }

  /** A plain `cargo test` that is not already a fallback. */
  predicate Splittable(group: seq<Item>, o: Observation, l: nat) {
    l < |group| && !group[l].serial && l in o.splittable
  }

  /** A member of a batch is built for later exactly when it can be split, memory covers two executables at once, and
      it will have company: one built before, or another one of its batch. */
  lemma SideExactly(p: Plan, built: nat, group: seq<Item>, o: Observation, l: nat)
    ensures l in Side(p, built, group, o) <==>
            && Splittable(group, o, l) && p.batchMode && p.parallelSteps && |group| > 1
            && o.freeGb.Some? && o.freeGb.value >= Needed(p.reserve, 2)
            && (built > 0 || exists k :: k != l && Splittable(group, o, k))
  {
    var all := set l: nat | 0 <= l < |group| && !group[l].serial && l in o.splittable;
    assert forall k :: k in all <==> Splittable(group, o, k);
    if l in all {
      assert |all| == |all - {l}| + 1;
      if k :| k != l && Splittable(group, o, k) {
        assert k in all - {l};
      }
      if |all| >= 2 {
        var k :| k in all - {l};
        assert Splittable(group, o, k);
      }
    }
  }

  lemma QueueFront(w: seq<Item>, k: nat)
    requires k < |w|
    ensures multiset(Queue(w[k..])) == multiset{w[k].index} + multiset(Queue(w[k + 1..]))
  {
    assert w[k..] == [w[k]] + w[k + 1..];
    QueueConcat([w[k]], w[k + 1..]);
    assert Queue([w[k]]) == [w[k].index];
  }

  lemma WeightNext(w: seq<Item>, k: nat)
    requires k < |w|
    ensures Weight(w[..k + 1]) == Weight(w[..k]) + (if w[k].serial then 1 else 2)
  {
    assert w[..k + 1] == w[..k] + [w[k]];
    WeightConcat(w[..k], [w[k]]);
  }

  /** State and deferred builds after the first `k` children: a built one waits, any other is recorded. */
  function ChildrenUpTo(p: Plan, s: State, group: seq<Item>, side: set<nat>, codes: seq<int>, k: nat)
    : (r: (State, seq<Item>))
    requires k <= |codes| <= |group| && InRange(p, group) && |s.keys| == |p.steps|
    ensures r.0 == s.(pending := r.0.pending, completed := r.0.completed)
    ensures InRange(p, r.1)
  {
    if k == 0 then (s, [])
    else
      ChildStep(p, ChildrenUpTo(p, s, group, side, codes, k - 1), group[k - 1], k - 1 in side, codes[k - 1])
  }

  function ChildStep(p: Plan, r: (State, seq<Item>), item: Item, built: bool, code: int): (next: (State, seq<Item>))
    requires item.index < |p.steps| && |r.0.keys| == |p.steps|
  {
    if built && code == 0 then (r.0, r.1 + [item])
    else (Record(r.0, Entry(p, r.0, item.index, Some(code), false)), r.1)
  }

  /** Between two children: the items in hand, the deferred builds and the rest of the group are owned. */
  ghost predicate Held(t: State, inHand: multiset<nat>, deferred: seq<Item>, rest: seq<Item>) {
    Owns(t, inHand + multiset(Queue(deferred)) + multiset(Queue(rest)))
  }

  lemma DeferKeeps(t: State, deferred: seq<Item>, group: seq<Item>, k: nat, inHand: multiset<nat>)
    requires k < |group| && Held(t, inHand, deferred, group[k..])
    ensures Held(t, inHand, deferred + [group[k]], group[k + 1..])
  {
    QueueFront(group, k);
    QueueConcat(deferred, [group[k]]);
    assert Queue([group[k]]) == [group[k].index];
  }

  lemma RecordFromGroup(p: Plan, t: State, r: Result, deferred: seq<Item>, group: seq<Item>, k: nat,
                        inHand: multiset<nat>)
    requires k < |group| && r.index == group[k].index && Recorded(p, t) && KeyedEntry(p, r)
    requires Held(t, inHand, deferred, group[k..])
    ensures r.index in t.pending && Recorded(p, Record(t, r))
    ensures Held(Record(t, r), inHand, deferred, group[k + 1..])
  {
    QueueFront(group, k);
    var rest := inHand + multiset(Queue(deferred)) + multiset(Queue(group[k + 1..]));
    assert inHand + multiset(Queue(deferred)) + multiset(Queue(group[k..])) == rest + multiset{r.index};
    RecordKeeps(p, t, r, rest);
  }

  lemma ChildKeeps(p: Plan, r: (State, seq<Item>), group: seq<Item>, k: nat, built: bool, code: int,
                   inHand: multiset<nat>)
    requires k < |group| && InRange(p, group) && Recorded(p, r.0) && Held(r.0, inHand, r.1, group[k..])
    ensures var next := ChildStep(p, r, group[k], built, code);
            Recorded(p, next.0) && Held(next.0, inHand, next.1, group[k + 1..])
  {
    if built && code == 0 {
      DeferKeeps(r.0, r.1, group, k, inHand);
    } else {
      EntryKeyed(p, r.0, group[k].index, Some(code));
      RecordFromGroup(p, r.0, Entry(p, r.0, group[k].index, Some(code), false), r.1, group, k, inHand);
    }
  }

  lemma {:induction false} ChildrenKeep(p: Plan, s: State, group: seq<Item>, side: set<nat>, codes: seq<int>, k: nat,
                                        inHand: multiset<nat>) returns (r: (State, seq<Item>))
    requires k <= |codes| <= |group| && InRange(p, group)
    requires Recorded(p, s) && Held(s, inHand, [], group)
    ensures r == ChildrenUpTo(p, s, group, side, codes, k)
    ensures Recorded(p, r.0) && Held(r.0, inHand, r.1, group[k..])
  {
    if k == 0 {
      assert group[0..] == group;
      r := (s, []);
    } else {
      var before := ChildrenKeep(p, s, group, side, codes, k - 1, inHand);
      ChildKeeps(p, before, group, k - 1, k - 1 in side, codes[k - 1], inHand);
      r := ChildStep(p, before, group[k - 1], k - 1 in side, codes[k - 1]);
    }
  }

  /** Deferring a build spends one of its two units; recording spends at least one. */
  lemma {:induction false} ChildrenWeight(p: Plan, s: State, group: seq<Item>, side: set<nat>, codes: seq<int>, k: nat)
    returns (r: (State, seq<Item>))
    requires k <= |codes| <= |group| && InRange(p, group) && |s.keys| == |p.steps|
    requires forall l :: l in side ==> l < |group| && !group[l].serial
    ensures r == ChildrenUpTo(p, s, group, side, codes, k) && k + |r.1| <= Weight(group[..k])
  {
    if k == 0 {
      r := (s, []);
    } else {
      var before := ChildrenWeight(p, s, group, side, codes, k - 1);
      WeightNext(group, k - 1);
      r := ChildStep(p, before, group[k - 1], k - 1 in side, codes[k - 1]);
    }
  }

  lemma ChildReports(p: Plan, before: (State, seq<Item>), item: Item, built: bool, code: int, r: Result)
    requires item.index < |p.steps| && |before.0.keys| == |p.steps|
    requires r in ChildStep(p, before, item, built, code).0.completed
    ensures r in before.0.completed || r == Entry(p, before.0, item.index, Some(code), false)
  {
  }

  /** Every new entry names a child of the group and carries that child's exit code. */
  lemma {:induction false} ChildrenReport(p: Plan, s: State, group: seq<Item>, side: set<nat>, codes: seq<int>, k: nat,
                                          r: Result)
    requires k <= |codes| <= |group| && InRange(p, group) && |s.keys| == |p.steps|
    requires r in ChildrenUpTo(p, s, group, side, codes, k).0.completed
    ensures r in s.completed || exists l :: 0 <= l < k && r == Entry(p, s, group[l].index, Some(codes[l]), false)
  {
    if k > 0 {
      var before := ChildrenUpTo(p, s, group, side, codes, k - 1);
      ChildReports(p, before, group[k - 1], k - 1 in side, codes[k - 1], r);
      if r in before.0.completed {
        ChildrenReport(p, s, group, side, codes, k - 1, r);
      }
    }
  }

  lemma ChildrenGreen(p: Plan, s: State, group: seq<Item>, side: set<nat>, codes: seq<int>)
    requires |codes| <= |group| && InRange(p, group) && |s.keys| == |p.steps|
    requires Greens(s) && AllZero(codes)
    ensures Greens(ChildrenUpTo(p, s, group, side, codes, |codes|).0)
  {
    forall r | r in ChildrenUpTo(p, s, group, side, codes, |codes|).0.completed
      ensures !s.red ==> Clean(r)
    {
      ChildrenReport(p, s, group, side, codes, |codes|, r);
    }
  }

  lemma {:induction false} NothingDeferred(p: Plan, s: State, group: seq<Item>, codes: seq<int>, k: nat)
    requires k <= |codes| <= |group| && InRange(p, group) && |s.keys| == |p.steps|
    ensures ChildrenUpTo(p, s, group, {}, codes, k).1 == []
  {
    if k > 0 {
      NothingDeferred(p, s, group, codes, k - 1);
    }
  }

  /** The deferred builds whose executables the log names, and the rest marked serial. */
  function Located(deferred: seq<Item>, located: set<nat>): (found: seq<Item>)
    ensures forall w :: w in found <==> w in deferred && w.index in located
  {
    if deferred == [] then []
    else if deferred[0].index in located then [deferred[0]] + Located(deferred[1..], located)
    else Located(deferred[1..], located)
  }

  function SerialFallback(deferred: seq<Item>, located: set<nat>): (items: seq<Item>)
    ensures forall x :: x in items <==>
              x.serial && exists w :: w in deferred && w.index == x.index && w.index !in located
  {
    if deferred == [] then []
    else if deferred[0].index in located then SerialFallback(deferred[1..], located)
    else [Item(deferred[0].index, true)] + SerialFallback(deferred[1..], located)
  }

  lemma {:induction false} LocateCounts(p: Plan, deferred: seq<Item>, located: set<nat>)
    requires InRange(p, deferred)
    ensures var found, fallback := Located(deferred, located), SerialFallback(deferred, located);
            |found| + Weight(fallback) == |deferred| && InRange(p, fallback) && InRange(p, found)
  {
    if deferred != [] {
      LocateCounts(p, deferred[1..], located);
    }
  }

  lemma QueueCons(item: Item, rest: seq<Item>)
    ensures multiset(Queue([item] + rest)) == multiset{item.index} + multiset(Queue(rest))
  {
    var w := [item] + rest;
    assert w[0..] == w && w[1..] == rest;
    QueueFront(w, 0);
  }

  lemma {:induction false} LocateSplits(p: Plan, deferred: seq<Item>, located: set<nat>)
    requires InRange(p, deferred)
    ensures multiset(Queue(Located(deferred, located))) + multiset(Queue(SerialFallback(deferred, located))) ==
            multiset(Queue(deferred))
  {
    if deferred != [] {
      var item, rest := deferred[0], deferred[1..];
      LocateSplits(p, rest, located);
      assert deferred == [item] + rest;
      QueueCons(item, rest);
      QueueCons(item, Located(rest, located));
      QueueCons(Item(item.index, true), SerialFallback(rest, located));
    }
  }

  /** Deferred builds: those the log names wait as executables, the others queue again as serial. */
  function Locate(s: State, deferred: seq<Item>, located: set<nat>): (t: State) {
    s.(work := SerialFallback(deferred, located) + s.work, built := s.built + Located(deferred, located))
  }

  lemma LocateKeeps(p: Plan, s: State, deferred: seq<Item>, located: set<nat>, inHand: multiset<nat>)
    requires InRange(p, deferred) && InRange(p, s.work) && InRange(p, s.built)
    requires Owns(s, multiset(Queue(deferred)) + inHand)
    ensures var t := Locate(s, deferred, located);
            InRange(p, t.work) && InRange(p, t.built) && Owns(t, inHand) && Measure(t) == Measure(s) + |deferred|
  {
    LocateSplits(p, deferred, located);
    LocateCounts(p, deferred, located);
    QueueConcat(SerialFallback(deferred, located), s.work);
    QueueConcat(s.built, Located(deferred, located));
    WeightConcat(SerialFallback(deferred, located), s.work);
  }

  function SideCodes(ready: seq<Item>, codes: map<nat, int>): (r: seq<int>)
    ensures |r| == |ready|
    ensures forall i :: 0 <= i < |ready| ==> r[i] == SideCode(codes, ready[i].index)
  {
    seq(|ready|, i requires 0 <= i < |ready| => SideCode(codes, ready[i].index))
  }

  predicate AnyRed(codes: seq<int>) {
    exists i :: 0 <= i < |codes| && codes[i] != 0
  }

  /** The waiting executables have run: each of their steps is recorded with its job's code. */
  function Flushed(p: Plan, s: State, codes: map<nat, int>): (t: State)
    requires |s.keys| == |p.steps| && InRange(p, s.built)
    ensures t == s.(pending := t.pending, completed := t.completed, built := [])
  {
    ChildrenUpTo(p, s.(built := []), s.built, {}, SideCodes(s.built, codes), |s.built|).0
  }

  /** Run the waiting executables side by side, record every one of them, and judge the reds. */
  function FlushStep(p: Plan, s: State, raises: bool, codes: map<nat, int>): (t: Outcome)
    requires |s.keys| == |p.steps| && InRange(p, s.built)
  {
    if raises then Outcome(s.(built := []), Raise)
    else
      var t := Flushed(p, s, codes);
      if !AnyRed(SideCodes(s.built, codes)) then Outcome(t, Continue)
      else if p.keepGoing then Outcome(t.(red := true), Continue)
      else Outcome(t.(status := Failed), Break)
  }

  lemma FlushedOwns(p: Plan, s: State, codes: map<nat, int>, inHand: multiset<nat>)
    requires Recorded(p, s) && Owns(s, inHand) && InRange(p, s.built)
    ensures Recorded(p, Flushed(p, s, codes)) && Owns(Flushed(p, s, codes), inHand)
  {
    var ready, idle := s.built, s.(built := []);
    IdleHolds(p, s, inHand);
    var after := ChildrenKeep(p, idle, ready, {}, SideCodes(ready, codes), |ready|, inHand);
    NothingDeferred(p, idle, ready, SideCodes(ready, codes), |ready|);
    assert ready[|ready|..] == [];
    NothingHeld(after.0, inHand);
  }

  lemma IdleHolds(p: Plan, s: State, inHand: multiset<nat>)
    requires Recorded(p, s) && Owns(s, inHand)
    ensures Recorded(p, s.(built := [])) && Held(s.(built := []), inHand, [], s.built)
  {
    assert Queue([]) == [];
  }

  lemma NothingHeld(t: State, inHand: multiset<nat>)
    requires Held(t, inHand, [], [])
    ensures Owns(t, inHand)
  {
    assert inHand + multiset(Queue([])) + multiset(Queue([])) == inHand;
  }

  /** The flush moves every waiting step from pending to completed, unless the runner itself raises. */
  lemma FlushRecords(p: Plan, s: State, raises: bool, codes: map<nat, int>, inHand: multiset<nat>)
    requires Recorded(p, s) && Owns(s, inHand) && InRange(p, s.built)
    ensures var t := FlushStep(p, s, raises, codes);
            && Recorded(p, t.s) && Stopped(t) && RedKept(p, s, t.s) && t.s.built == []
            && (t.flow.Raise? <==> raises) && (!raises ==> Owns(t.s, inHand))
  {
    if raises {
      IdleHolds(p, s, inHand);
    } else {
      FlushedOwns(p, s, codes, inHand);
      var u, t := Flushed(p, s, codes), FlushStep(p, s, raises, codes).s;
      assert t == u.(red := t.red, status := t.status);
      SameBooks(p, u, t, inHand);
    }
  }

  /** Status and red mark are no part of the books. */
  lemma SameBooks(p: Plan, u: State, t: State, inHand: multiset<nat>)
    requires Recorded(p, u) && Owns(u, inHand) && t == u.(red := t.red, status := t.status)
    ensures Recorded(p, t) && Owns(t, inHand)
  {
  }

  lemma FlushContinues(p: Plan, s: State, codes: map<nat, int>)
    requires |s.keys| == |p.steps| && InRange(p, s.built)
    requires FlushStep(p, s, false, codes).flow.Continue? && Greens(s)
    ensures Greens(FlushStep(p, s, false, codes).s)
  {
    if !AnyRed(SideCodes(s.built, codes)) {
      ChildrenGreen(p, s.(built := []), s.built, {}, SideCodes(s.built, codes));
    }
  }

  /** After recording and flushing: stop, or put the unfinished rest of the group back in front. */
  function SettleStep(p: Plan, s: State, group: seq<Item>, parsed: Parsed): (t: Outcome)
    requires parsed.Parsed? && |parsed.codes| <= |group|
    ensures t.s == s.(work := t.s.work, status := t.s.status, red := t.s.red)
  {
    var back := s.(work := group[|parsed.codes|..] + s.work);
    if parsed.stop.ChildFailure? && p.keepGoing then Outcome(back.(red := true), Continue)
    else if parsed.stop.ChildFailure? || parsed.stop.SpawnFailure? then Outcome(s.(status := Failed), Break)
    else if parsed.remaining == [] then Outcome(s, Continue)
    else if parsed.stop.Deadline? then Outcome(back.(status := BudgetExceeded), Break)
    else if parsed.codes == [] then Outcome(back.(status := Incomplete), Break)
    else Outcome(back, Continue)
  }

  lemma SettleRecords(p: Plan, s: State, group: seq<Item>, parsed: Parsed)
    requires Recorded(p, s) && parsed.Parsed? && |parsed.codes| <= |group|
    ensures var t := SettleStep(p, s, group, parsed);
            Recorded(p, t.s) && Stopped(t) && RedKept(p, s, t.s)
  {
    var t := SettleStep(p, s, group, parsed).s;
    assert t.pending == s.pending && t.completed == s.completed && t.skipped == s.skipped && t.keys == s.keys;
  }

  lemma SettleContinues(p: Plan, s: State, group: seq<Item>, parsed: Parsed)
    requires InRange(p, s.work) && InRange(p, s.built) && s.status == Incomplete && p.batchMode
    requires group != [] && InRange(p, group) && Accepted(parsed, |group|)
    requires forall w :: w in group ==> Batchable(p.steps[w.index])
    requires Owns(s, multiset(Queue(group[|parsed.codes|..])))
    requires AllZero(parsed.codes) ==> Greens(s)
    requires s.built != [] ==> parsed.stop.LeaseBoundary? && parsed.remaining != []
    requires SettleStep(p, s, group, parsed).flow.Continue?
    ensures var t := SettleStep(p, s, group, parsed).s;
            && Owns(t, multiset{}) && Greens(t) && BuiltWaits(p, t) && t.status == Incomplete
            && parsed.codes != [] && Measure(t) == Weight(group[|parsed.codes|..]) + Measure(s)
  {
    var left := group[|parsed.codes|..];
    var t := SettleStep(p, s, group, parsed).s;
    QueueConcat(left, s.work);
    WeightConcat(left, s.work);
    assert parsed.remaining == [] ==> left == [] && left + s.work == s.work;
    assert t.work == left + s.work;
    assert parsed.stop.ChildFailure? || AllZero(parsed.codes);
  }

  /** The waiting executables run now, unless a lease boundary left more of the batch to build. */
  predicate FlushDue(s: State, parsed: Parsed)
    requires parsed.Parsed?
  {
    s.built != [] && !(parsed.stop.LeaseBoundary? && parsed.remaining != [])
  }

  /** Everything after the children: locate the built ones, flush when due, settle the rest. */
  function AfterChildren(p: Plan, s: State, deferred: seq<Item>, group: seq<Item>, parsed: Parsed, o: Observation,
                         codes: map<nat, int>): (t: Outcome)
    requires parsed.Parsed? && |parsed.codes| <= |group| && |s.keys| == |p.steps|
    requires InRange(p, s.built) && InRange(p, deferred)
  {
    AfterLocate(p, Locate(s, deferred, o.located), group, parsed, o.sideRaises, codes)
  }

  function AfterLocate(p: Plan, u: State, group: seq<Item>, parsed: Parsed, raises: bool, codes: map<nat, int>)
    : (t: Outcome)
    requires parsed.Parsed? && |parsed.codes| <= |group| && |u.keys| == |p.steps| && InRange(p, u.built)
  {
    if FlushDue(u, parsed) then
      var f := FlushStep(p, u, raises, codes);
      if f.flow.Continue? then SettleStep(p, f.s, group, parsed) else f
    else SettleStep(p, u, group, parsed)
  }

  /** What is left of a batch once the built ones are located: the conditions for going on. */
  ghost predicate Settling(p: Plan, s: State, group: seq<Item>, parsed: Parsed) {
    && Recorded(p, s) && InRange(p, s.work) && InRange(p, s.built) && s.status == Incomplete && p.batchMode
    && group != [] && InRange(p, group) && Accepted(parsed, |group|)
    && (forall w :: w in group ==> Batchable(p.steps[w.index]))
    && Owns(s, multiset(Queue(group[|parsed.codes|..])))
    && (AllZero(parsed.codes) ==> Greens(s))
  }

  lemma FlushKeeps(p: Plan, s: State, group: seq<Item>, parsed: Parsed, raises: bool, codes: map<nat, int>)
    requires Settling(p, s, group, parsed)
    ensures var f := FlushStep(p, s, raises, codes);
            && Recorded(p, f.s) && Stopped(f) && RedKept(p, s, f.s)
            && (f.flow.Continue? ==>
                  Settling(p, f.s, group, parsed) && f.s.built == [] && Measure(f.s) <= Measure(s))
  {
    FlushRecords(p, s, raises, codes, multiset(Queue(group[|parsed.codes|..])));
    if FlushStep(p, s, raises, codes).flow.Continue? {
      FlushShape(p, s, codes);
      if Greens(s) {
        FlushContinues(p, s, codes);
      }
    }
  }

  /** From the located state to the end of the turn. */
  ghost predicate SettledWell(p: Plan, s: State, group: seq<Item>, parsed: Parsed, t: Outcome)
    requires parsed.Parsed? && |parsed.codes| <= |group|
  {
    && Recorded(p, t.s) && Stopped(t) && RedKept(p, s, t.s)
    && (t.flow.Continue? ==>
          && Valid(p, t.s) && t.s.status == Incomplete && parsed.codes != []
          && Measure(t.s) <= Weight(group[|parsed.codes|..]) + Measure(s))
  }

  lemma LocatedKeeps(p: Plan, u: State, group: seq<Item>, parsed: Parsed, raises: bool, codes: map<nat, int>)
    requires Settling(p, u, group, parsed)
    ensures SettledWell(p, u, group, parsed, AfterLocate(p, u, group, parsed, raises, codes))
  {
    if FlushDue(u, parsed) {
      FlushKeeps(p, u, group, parsed, raises, codes);
      var f := FlushStep(p, u, raises, codes);
      if f.flow.Continue? {
        SettleKeeps(p, f.s, group, parsed);
      }
    } else {
      SettleKeeps(p, u, group, parsed);
    }
  }

  lemma AfterChildrenKeeps(p: Plan, s: State, deferred: seq<Item>, group: seq<Item>, parsed: Parsed, o: Observation,
                           codes: map<nat, int>) returns (t: Outcome)
    requires Recorded(p, s) && InRange(p, s.work) && InRange(p, s.built) && InRange(p, deferred)
    requires s.status == Incomplete && p.batchMode
    requires group != [] && InRange(p, group) && Accepted(parsed, |group|)
    requires forall w :: w in group ==> Batchable(p.steps[w.index])
    requires Owns(s, multiset(Queue(deferred)) + multiset(Queue(group[|parsed.codes|..])))
    requires AllZero(parsed.codes) ==> Greens(s)
    ensures t == AfterChildren(p, s, deferred, group, parsed, o, codes)
    ensures parsed.codes != [] || !t.flow.Continue?
    ensures Kept(p, s, Weight(group[|parsed.codes|..]) + Measure(s) + |deferred| + 1, t)
  {
    LocateKeeps(p, s, deferred, o.located, multiset(Queue(group[|parsed.codes|..])));
    var u := Locate(s, deferred, o.located);
    assert Recorded(p, u);
    LocatedKeeps(p, u, group, parsed, o.sideRaises, codes);
    t := AfterLocate(p, u, group, parsed, o.sideRaises, codes);
  }

  lemma FlushShape(p: Plan, s: State, codes: map<nat, int>)
    requires |s.keys| == |p.steps| && InRange(p, s.built) && FlushStep(p, s, false, codes).flow.Continue?
    ensures var t := FlushStep(p, s, false, codes).s;
            t.work == s.work && t.built == [] && t.status == s.status && t.keys == s.keys && Measure(t) <= Measure(s)
  {
  }

  lemma SettleKeeps(p: Plan, s: State, group: seq<Item>, parsed: Parsed)
    requires Settling(p, s, group, parsed)
    requires s.built != [] ==> parsed.stop.LeaseBoundary? && parsed.remaining != []
    ensures SettledWell(p, s, group, parsed, SettleStep(p, s, group, parsed))
  {
    SettleRecords(p, s, group, parsed);
    if SettleStep(p, s, group, parsed).flow.Continue? {
      SettleContinues(p, s, group, parsed);
    }
  }

  // ---------------------------------------------------------------- one turn, as a function of the answers

  /** One slot batch: an unacceptable reply stops; otherwise record, defer, flush and settle. */
  ghost function BatchStep(p: Plan, s: State, group: seq<Item>, o: Observation, codes: map<nat, int>): (t: Outcome)
    requires |s.keys| == |p.steps| && InRange(p, s.built) && InRange(p, group)
  {
    if !Replied(group, o) then Outcome(s, Break)
    else
      var parsed := Reading(o.envelope.value);
      var r := ChildrenUpTo(p, s, group, Side(p, |s.built|, group, o), parsed.codes, |parsed.codes|);
      AfterChildren(p, r.0, r.1, group, parsed, o, codes)
  }

  /** The slot worker's reply is one the runner accepts. */
  ghost predicate Replied(group: seq<Item>, o: Observation) {
    o.envelope.Some? && Acceptable(o.envelope.value, |group|, o.returncode)
  }

  /** The steps whose executables a batch runs side by side. */
  ghost function BatchReady(p: Plan, s: State, group: seq<Item>, o: Observation): (ready: seq<Item>)
    requires |s.keys| == |p.steps| && InRange(p, s.built) && InRange(p, group)
  {
    if !Replied(group, o) then []
    else
      var parsed := Reading(o.envelope.value);
      var r := ChildrenUpTo(p, s, group, Side(p, |s.built|, group, o), parsed.codes, |parsed.codes|);
      var u := Locate(r.0, r.1, o.located);
      if FlushDue(u, parsed) then u.built else []
  }

  /** After an accepted reply everything built so far runs side by side, unless the batch stopped at a lease boundary
      with members left: then it waits for them. */
  lemma BuiltWaitForTheBatch(p: Plan, s: State, group: seq<Item>, o: Observation)
    requires |s.keys| == |p.steps| && InRange(p, s.built) && InRange(p, group) && Replied(group, o)
    ensures var e, parsed := o.envelope.value, Reading(o.envelope.value);
            var side := Side(p, |s.built|, group, o);
            var deferred := ChildrenUpTo(p, s, group, side, parsed.codes, |parsed.codes|).1;
            BatchReady(p, s, group, o) ==
            if e.stop.LeaseBoundary? && e.remaining != [] then [] else s.built + Located(deferred, o.located)
  {
  }

  /** What ran side by side has a failing step. */
  ghost predicate SideRed(ready: seq<Item>, codes: map<nat, int>) {
    exists i :: 0 <= i < |ready| && SideCode(codes, ready[i].index) != 0
  }

  lemma FlushExactly(p: Plan, s: State, raises: bool, codes: map<nat, int>)
    requires |s.keys| == |p.steps| && InRange(p, s.built)
    ensures var t := FlushStep(p, s, raises, codes);
            if raises then t.flow.Raise?
            else if SideRed(s.built, codes) && !p.keepGoing then StopsWith(s, t, Failed)
            else t.flow.Continue? && t.s.status == s.status && t.s.work == s.work
                 && t.s.red == (s.red || SideRed(s.built, codes))
  {
    assert !raises ==> (AnyRed(SideCodes(s.built, codes)) <==> SideRed(s.built, codes));
  }

  lemma SettleExactly(p: Plan, s: State, group: seq<Item>, e: Envelope, returncode: int)
    requires Acceptable(e, |group|, returncode)
    ensures var t := SettleStep(p, s, group, Reading(e));
            if e.stop.ChildFailure? && p.keepGoing then
              t.flow.Continue? && t.s.red && t.s.work == group[|e.completed|..] + s.work && t.s.status == s.status
            else if e.stop.ChildFailure? || e.stop.SpawnFailure? then StopsWith(s, t, Failed)
            else if e.stop.Deadline? then StopsWith(s, t, BudgetExceeded)
            else t == Outcome(s.(work := group[|e.completed|..] + s.work), Continue)
  {
    assert e.stop.Exhausted? ==> group[|e.completed|..] + s.work == s.work;
  }

  /** Where the loop stands after an accepted reply: a failing executable or child is a red under keep-going and stops
      the run as failed otherwise, a failed spawn always does, a deadline stops it as out of budget; going on, the rest
      of the group stands in front, then what was not located, then the queue. */
  lemma BatchExactly(p: Plan, s: State, group: seq<Item>, o: Observation, codes: map<nat, int>)
    requires |s.keys| == |p.steps| && InRange(p, s.built) && InRange(p, group) && Replied(group, o)
    ensures var t, e, ready := BatchStep(p, s, group, o, codes), o.envelope.value, BatchReady(p, s, group, o);
            if ready != [] && o.sideRaises then t.flow.Raise?
            else if SideRed(ready, codes) && !p.keepGoing then t.flow.Break? && t.s.status == Failed
            else if e.stop.SpawnFailure? || (e.stop.ChildFailure? && !p.keepGoing) then
              t.flow.Break? && t.s.status == Failed
            else if e.stop.Deadline? then t.flow.Break? && t.s.status == BudgetExceeded
            else t.flow.Continue? && t.s.status == s.status && FrontOf(p, s, group, o, t.s.work)
                 && t.s.red == (s.red || SideRed(ready, codes) || e.stop.ChildFailure?)
  {
    var e, parsed := o.envelope.value, Reading(o.envelope.value);
    var r := ChildrenUpTo(p, s, group, Side(p, |s.built|, group, o), parsed.codes, |parsed.codes|);
    var u := Locate(r.0, r.1, o.located);
    if FlushDue(u, parsed) {
      FlushExactly(p, u, o.sideRaises, codes);
      SettleExactly(p, FlushStep(p, u, o.sideRaises, codes).s, group, e, o.returncode);
    } else {
      SettleExactly(p, u, group, e, o.returncode);
    }
  }

  ghost predicate FrontOf(p: Plan, s: State, group: seq<Item>, o: Observation, work: seq<Item>)
    requires |s.keys| == |p.steps| && InRange(p, s.built) && InRange(p, group) && Replied(group, o)
  {
    var parsed := Reading(o.envelope.value);
    var deferred := ChildrenUpTo(p, s, group, Side(p, |s.built|, group, o), parsed.codes, |parsed.codes|).1;
    work == group[|parsed.codes|..] + (SerialFallback(deferred, o.located) + s.work)
  }

  /** A late Studio preparation for some entry of the group. */
  predicate LatePreparation(p: Plan, group: seq<Item>, o: Observation)
    requires forall w :: w in group ==> w.index < |p.steps|
  {
    exists w :: w in group && |p.steps[w.index].argv| > 0 && p.steps[w.index].argv[0] == "npx"
                && o.needsPreparation && w.index !in p.preparationSteps
  }

  /** The child ran out of budget: its entry has no return code and the loop stops. */
  function TimedOut(p: Plan, s: State, index: nat): (t: Outcome)
    requires index < |p.steps| && |s.keys| == |p.steps|
  {
    Outcome(Record(s, Entry(p, s, index, None, true)).(status := BudgetExceeded), Break)
  }

  /** A turn can begin: there is work, all of it planned. */
  ghost predicate CanTurn(p: Plan, s: State) {
    s.work != [] && |s.keys| == |p.steps| && InRange(p, s.work) && InRange(p, s.built)
  }

  /** What a turn takes from the queue. */
  function Group(p: Plan, s: State): (group: seq<Item>)
    requires s.work != [] && forall w :: w in s.work ==> w.index < |p.steps|
    ensures group != [] && group <= s.work && forall w :: w in group ==> w.index < |p.steps|
  {
    s.work[..GroupSize(p.steps, s.work, p.batchMode)]
  }

  /** The state with the group taken, and after a late preparation without anything reused. */
  function Taken(p: Plan, s: State, o: Observation): (u: State)
    requires s.work != [] && forall w :: w in s.work ==> w.index < |p.steps|
    ensures u.work == s.work[|Group(p, s)|..] && u.built == s.built
  {
    var u := s.(work := s.work[|Group(p, s)|..]);
    if LatePreparation(p, Group(p, s), o) then PutBackReused(p, u) else u
  }

  predicate IsBatch(p: Plan, group: seq<Item>)
    requires group != [] && group[0].index < |p.steps|
  {
    p.batchMode && Batchable(p.steps[group[0].index])
  }

  /** One turn of the work loop, from the answers of the environment and the codes of what ran side by side. */
  ghost function TurnOf(p: Plan, s: State, o: Observation, codes: map<nat, int>): (t: Outcome)
    requires CanTurn(p, s)
  {
    var group, u := Group(p, s), Taken(p, s, o);
    if p.budget - o.clock <= 0.0 then Outcome(s.(status := BudgetExceeded), Break)
    else Dispatched(p, u, group, o, codes)
  }

  /** The steps whose executables a turn runs side by side. */
  ghost function ReadyIn(p: Plan, s: State, o: Observation): (ready: seq<Item>)
    requires CanTurn(p, s)
  {
    if p.budget - o.clock <= 0.0 || o.launchFails || o.timedOut || !IsBatch(p, Group(p, s)) then []
    else BatchReady(p, Taken(p, s, o), Group(p, s), o)
  }

  /** The turn from `s` under these answers ended in `t`. */
  ghost predicate Turned(p: Plan, s: State, o: Observation, t: Outcome) {
    CanTurn(p, s) && exists codes :: Fit(ReadyIn(p, s, o), o, codes) && t == TurnOf(p, s, o, codes)
  }

  /** How a turn ends where no result comes back: out of budget before it starts, not started, out of budget while it
      runs, or a reply that is not accepted. */
  lemma TurnWithoutResult(p: Plan, s: State, o: Observation, codes: map<nat, int>)
    requires CanTurn(p, s) && s.status == Incomplete
    ensures var t, late := TurnOf(p, s, o, codes), p.budget - o.clock <= 0.0;
            && (late || (!o.launchFails && o.timedOut) ==> StopsWith(s, t, BudgetExceeded))
            && (!late && o.launchFails ==> t.flow.Raise? && t.s.completed == Taken(p, s, o).completed)
            && (!late && !o.launchFails && !o.timedOut && IsBatch(p, Group(p, s)) && !Replied(Group(p, s), o) ==>
                  StopsWith(s, t, Incomplete) && t.s.completed == Taken(p, s, o).completed)
  {
  }

  // ---------------------------------------------------------------- what a turn keeps

  lemma TakeGroup(p: Plan, s: State, size: nat)
    requires Valid(p, s) && size <= |s.work|
    ensures var u, group := s.(work := s.work[size..]), s.work[..size];
            && Recorded(p, u) && Owns(u, multiset(Queue(group))) && InRange(p, u.work) && InRange(p, group)
            && Measure(s) == Weight(group) + Measure(u)
  {
    assert s.work == s.work[..size] + s.work[size..];
    QueueConcat(s.work[..size], s.work[size..]);
    WeightConcat(s.work[..size], s.work[size..]);
  }

  lemma TakenKeeps(p: Plan, s: State, o: Observation) returns (u: State, group: seq<Item>)
    requires Valid(p, s) && s.work != []
    ensures CanTurn(p, s) && u == Taken(p, s, o) && group == Group(p, s)
    ensures Recorded(p, u) && Greens(u) && Owns(u, multiset(Queue(group))) && InRange(p, u.work) && InRange(p, u.built)
    ensures group != [] && InRange(p, group) && Measure(s) == Weight(group) + Measure(u)
    ensures u.status == s.status && u.red == s.red && u.built == s.built
    ensures if IsBatch(p, group) then forall w :: w in group ==> Batchable(p.steps[w.index])
            else |group| == 1 && u.built == []
  {
    group := Group(p, s);
    GroupKind(p, s);
    TakeGroup(p, s, |group|);
    u := s.(work := s.work[|group|..]);
    if LatePreparation(p, group, o) {
      PutBackKeeps(p, u, multiset(Queue(group)));
      u := PutBackReused(p, u);
    }
  }

  /** A group is a batch, or a single step with nothing built in wait. */
  lemma GroupKind(p: Plan, s: State)
    requires BuiltWaits(p, s) && s.work != []
    ensures var group := Group(p, s);
            if IsBatch(p, group) then forall w :: w in group ==> Batchable(p.steps[w.index])
            else |group| == 1 && s.built == []
  {
  }

  lemma BatchChildren(p: Plan, s: State, group: seq<Item>, side: set<nat>, codes: seq<int>)
    returns (r: (State, seq<Item>))
    requires |codes| <= |group| && InRange(p, group) && Recorded(p, s) && Greens(s)
    requires Owns(s, multiset(Queue(group))) && forall l :: l in side ==> l < |group| && !group[l].serial
    ensures r == ChildrenUpTo(p, s, group, side, codes, |codes|)
    ensures r.0 == s.(pending := r.0.pending, completed := r.0.completed) && InRange(p, r.1)
    ensures Recorded(p, r.0) && Owns(r.0, multiset(Queue(r.1)) + multiset(Queue(group[|codes|..])))
    ensures (AllZero(codes) ==> Greens(r.0)) && |codes| + |r.1| <= Weight(group[..|codes|])
  {
    assert Held(s, multiset{}, [], group) by {
      assert multiset{} + multiset(Queue([])) + multiset(Queue(group)) == multiset(Queue(group));
    }
    r := ChildrenKeep(p, s, group, side, codes, |codes|, multiset{});
    var weighed := ChildrenWeight(p, s, group, side, codes, |codes|);
    if AllZero(codes) {
      ChildrenGreen(p, s, group, side, codes);
    }
    assert multiset{} + multiset(Queue(r.1)) == multiset(Queue(r.1));
  }

  lemma WeightSplit(w: seq<Item>, k: nat)
    requires k <= |w|
    ensures Weight(w) == Weight(w[..k]) + Weight(w[k..])
  {
    assert w == w[..k] + w[k..];
    WeightConcat(w[..k], w[k..]);
  }

  /** A bound carries over to a state with the same queue and red mark. */
  lemma KeptFrom(p: Plan, s: State, u: State, low: nat, high: nat, t: Outcome)
    requires Kept(p, u, low, t) && low <= high && u.red == s.red
    ensures Kept(p, s, high, t)
  {
  }

  lemma BatchKeeps(p: Plan, s: State, group: seq<Item>, o: Observation, codes: map<nat, int>) returns (t: Outcome)
    requires Recorded(p, s) && Greens(s) && InRange(p, s.work) && InRange(p, s.built)
    requires s.status == Incomplete && p.batchMode
    requires group != [] && InRange(p, group) && Owns(s, multiset(Queue(group)))
    requires forall w :: w in group ==> Batchable(p.steps[w.index])
    ensures t == BatchStep(p, s, group, o, codes) && Kept(p, s, Weight(group) + Measure(s), t)
  {
    if Replied(group, o) {
      var parsed := Reading(o.envelope.value);
      ReadingAccepted(o.envelope.value, |group|, o.returncode);
      var r := BatchChildren(p, s, group, Side(p, |s.built|, group, o), parsed.codes);
      t := AfterChildrenKeeps(p, r.0, r.1, group, parsed, o, codes);
      WeightSplit(group, |parsed.codes|);
      var k := |parsed.codes|;
      if k > 0 {
        KeptFrom(p, s, r.0, Weight(group[k..]) + Measure(r.0) + |r.1| + 1, Weight(group) + Measure(s), t);
      }
    } else {
      t := Outcome(s, Break);
    }
  }

  lemma TimeoutKeeps(p: Plan, s: State, group: seq<Item>, bound: nat)
    requires Recorded(p, s) && group != [] && InRange(p, group) && Owns(s, multiset(Queue(group)))
    ensures Kept(p, s, bound, TimedOut(p, s, group[0].index))
  {
    var r := Entry(p, s, group[0].index, None, true);
    var rest := multiset(Queue(group[1..]));
    assert group == [group[0]] + group[1..];
    QueueCons(group[0], group[1..]);
    RecordKeeps(p, s, r, rest);
  }

  lemma SingleKeeps(p: Plan, s: State, group: seq<Item>, o: Observation)
    requires Recorded(p, s) && Greens(s) && BuiltWaits(p, s) && s.built == [] && s.status == Incomplete
    requires |group| == 1 && InRange(p, group) && Owns(s, multiset(Queue(group)))
    ensures Kept(p, s, Weight(group) + Measure(s), SingleStep(p, s, group[0].index, o))
  {
    var index := group[0].index;
    assert Queue(group) == [index];
    SingleRecords(p, s, index, o);
    if SingleStep(p, s, index, o).flow.Continue? {
      SingleContinues(p, s, index, o);
    }
  }

  /** The branches of a turn after the group is taken. */
  ghost function Dispatched(p: Plan, u: State, group: seq<Item>, o: Observation, codes: map<nat, int>): (t: Outcome)
    requires |u.keys| == |p.steps| && InRange(p, u.built) && InRange(p, group) && group != []
  {
    if o.launchFails then Outcome(u, Raise)
    else if o.timedOut then TimedOut(p, u, group[0].index)
    else if IsBatch(p, group) then BatchStep(p, u, group, o, codes)
    else SingleStep(p, u, group[0].index, o)
  }

  lemma DispatchKeeps(p: Plan, u: State, group: seq<Item>, o: Observation, codes: map<nat, int>)
    requires Recorded(p, u) && Greens(u) && InRange(p, u.work) && InRange(p, u.built) && u.status == Incomplete
    requires group != [] && InRange(p, group) && Owns(u, multiset(Queue(group)))
    requires if IsBatch(p, group) then forall w :: w in group ==> Batchable(p.steps[w.index])
             else |group| == 1 && u.built == []
    ensures Kept(p, u, Weight(group) + Measure(u), Dispatched(p, u, group, o, codes))
  {
    if !o.launchFails {
      if o.timedOut {
        TimeoutKeeps(p, u, group, Weight(group) + Measure(u));
      } else if IsBatch(p, group) {
        var t := BatchKeeps(p, u, group, o, codes);
      } else {
        SingleKeeps(p, u, group, o);
      }
    }
  }

  /** Whatever the environment answers, a turn keeps the books, hides no red, and either stops or lowers the
      measure. */
  lemma TurnKeeps(p: Plan, s: State, o: Observation, codes: map<nat, int>) returns (t: Outcome)
    requires Valid(p, s) && s.work != [] && s.status == Incomplete
    ensures CanTurn(p, s) && t == TurnOf(p, s, o, codes) && Kept(p, s, Measure(s), t)
  {
    var u, group := TakenKeeps(p, s, o);
    if p.budget - o.clock <= 0.0 {
      t := Outcome(s.(status := BudgetExceeded), Break);
    } else {
      DispatchKeeps(p, u, group, o, codes);
      t := Dispatched(p, u, group, o, codes);
    }
  }

  // ---------------------------------------------------------------- where an entry comes from

  /** The turn ran the very step of `r` and reported what `r` records: out of budget, alone with its return code and
      marks, as its own child of an accepted reply with that exit code, or side by side with code 0 exactly when all
      its executables spawned and exited 0. */
  ghost predicate Witnessed(p: Plan, s: State, o: Observation, r: Result) {
    CanTurn(p, s) &&
    var group := Group(p, s);
    || (o.timedOut && group[0].index == r.index && r.returncode.None? && r.error)
    || (!IsBatch(p, group) && RanAlone(p, group[0].index, o, r))
    || (IsBatch(p, group) && exists l :: ChildReported(group, o, l, r))
    || (r.index in Queue(ReadyIn(p, s, o)) && SideReported(o, r))
  }

  /** The step was run alone, and the entry says what was observed: the child's own return code, or 1 where pytest
      exited 0 without a test; unobserved where it exited 0 and said so; zero tests where unittest ran none; the vitest
      evidence of a vitest step; and an error exactly for one of these or bad vitest evidence. */
  ghost predicate RanAlone(p: Plan, index: nat, o: Observation, r: Result) {
    && index < |p.steps| && r.index == index
    && r.returncode == Some(if o.returncode == 0 && Uncollected(o) then 1 else o.returncode)
    && (r.unobserved <==> o.returncode == 0 && o.unobservedMark)
    && (r.zeroTests <==> "-m" in p.steps[index].argv && "unittest" in p.steps[index].argv && o.ranZero)
    && (r.error <==> r.unobserved || Uncollected(o) || BadEvidence(p.steps[index], o))
    && r.vitest == (if VitestStep(p.steps[index].argv, p.steps[index].cwd) && o.vitest.Evidence? then Some(o.vitest.v)
                    else None)
  }

  /** A pytest command that collected nothing. */
  ghost predicate Uncollected(o: Observation) {
    o.pytestCommand && (o.returncode == 5 || o.noTestsRan)
  }

  /** A vitest step without readable evidence of passing tests and of nothing else. */
  ghost predicate BadEvidence(step: Step, o: Observation) {
    VitestStep(step.argv, step.cwd)
    && !(o.vitest.Evidence? && o.vitest.v.failed == 0 && o.vitest.v.errors == 0 && o.vitest.v.passed > 0
         && o.vitest.v.success)
  }

  /** Child `l` of an accepted reply is this step, and the entry has its exit code. */
  ghost predicate ChildReported(group: seq<Item>, o: Observation, l: nat, r: Result) {
    && l < |group| && group[l].index == r.index && Replied(group, o)
    && l < |o.envelope.value.completed| && r.returncode == Some(o.envelope.value.completed[l].exitCode)
    && Unmarked(r)
  }

  /** Nothing but the return code speaks for or against the step. */
  ghost predicate Unmarked(r: Result) {
    !r.error && !r.zeroTests && !r.unobserved && r.vitest.None?
  }

  /** The entry's code is that of a job whose executables met these fates. */
  ghost predicate SideReported(o: Observation, r: Result) {
    r.returncode.Some? && (r.returncode == Some(0) <==> AllGood(o, r.index)) && Unmarked(r)
  }

  /** Every entry added by a flush names a waiting executable and carries its exit code. */
  lemma FlushReports(p: Plan, s: State, raises: bool, codes: map<nat, int>, r: Result)
    requires |s.keys| == |p.steps| && InRange(p, s.built) && r in FlushStep(p, s, raises, codes).s.completed
    ensures r in s.completed
            || (r.index in Queue(s.built) && r.returncode == Some(SideCode(codes, r.index)) && Unmarked(r))
  {
    var side, idle := SideCodes(s.built, codes), s.(built := []);
    if r !in s.completed {
      assert r in Flushed(p, s, codes).completed;
      ChildrenReport(p, idle, s.built, {}, side, |side|, r);
      var l :| 0 <= l < |side| && r == Entry(p, idle, s.built[l].index, Some(side[l]), false);
      assert Queue(s.built)[l] == r.index;
    }
  }

  lemma AfterChildrenReports(p: Plan, s: State, deferred: seq<Item>, group: seq<Item>, parsed: Parsed, o: Observation,
                             codes: map<nat, int>, r: Result)
    requires parsed.Parsed? && |parsed.codes| <= |group| && |s.keys| == |p.steps|
    requires InRange(p, s.built) && InRange(p, deferred)
    requires r in AfterChildren(p, s, deferred, group, parsed, o, codes).s.completed
    ensures var u := Locate(s, deferred, o.located);
            r in s.completed
            || (FlushDue(u, parsed) && r.index in Queue(u.built) && r.returncode == Some(SideCode(codes, r.index))
                && Unmarked(r))
  {
    var u := Locate(s, deferred, o.located);
    if FlushDue(u, parsed) {
      FlushReports(p, u, o.sideRaises, codes, r);
    }
  }

  lemma BatchReports(p: Plan, s: State, group: seq<Item>, o: Observation, codes: map<nat, int>, r: Result)
    requires |s.keys| == |p.steps| && InRange(p, s.built) && InRange(p, group)
    requires Fit(BatchReady(p, s, group, o), o, codes)
    requires r in BatchStep(p, s, group, o, codes).s.completed
    ensures || r in s.completed || (exists l :: ChildReported(group, o, l, r))
            || (r.index in Queue(BatchReady(p, s, group, o)) && SideReported(o, r))
  {
    if Replied(group, o) {
      var parsed, side := Reading(o.envelope.value), Side(p, |s.built|, group, o);
      var c := ChildrenUpTo(p, s, group, side, parsed.codes, |parsed.codes|);
      AfterChildrenReports(p, c.0, c.1, group, parsed, o, codes, r);
      if r in c.0.completed {
        ChildrenReport(p, s, group, side, parsed.codes, |parsed.codes|, r);
        if r !in s.completed {
          var l: nat :| l < |parsed.codes| && r == Entry(p, s, group[l].index, Some(parsed.codes[l]), false);
          assert ChildReported(group, o, l, r);
        }
      } else {
        var ready := BatchReady(p, s, group, o);
        var i :| 0 <= i < |Queue(ready)| && Queue(ready)[i] == r.index;
        assert SideCode(codes, ready[i].index) == 0 <==> AllGood(o, ready[i].index);
      }
    }
  }

  lemma SingleReports(p: Plan, s: State, index: nat, o: Observation, r: Result)
    requires index < |p.steps| && |s.keys| == |p.steps| && r in SingleStep(p, s, index, o).s.completed
    ensures r in s.completed || RanAlone(p, index, o, r)
  {
  }

  lemma TimeoutReports(p: Plan, s: State, index: nat, r: Result)
    requires index < |p.steps| && |s.keys| == |p.steps| && r in TimedOut(p, s, index).s.completed
    ensures r in s.completed || (r.index == index && r.returncode.None? && r.error)
  {
  }

  lemma TakenReports(p: Plan, s: State, o: Observation, r: Result)
    requires CanTurn(p, s) && r in Taken(p, s, o).completed
    ensures r in s.completed
  {
  }

  lemma DispatchReports(p: Plan, u: State, group: seq<Item>, o: Observation, codes: map<nat, int>, r: Result)
    requires |u.keys| == |p.steps| && InRange(p, u.built) && InRange(p, group) && group != []
    requires FitFor(p, u, group, o, codes)
    requires r in Dispatched(p, u, group, o, codes).s.completed && r !in u.completed
    ensures !o.launchFails
    ensures if o.timedOut then group[0].index == r.index && r.returncode.None? && r.error
            else if IsBatch(p, group) then
              (exists l :: ChildReported(group, o, l, r))
              || (r.index in Queue(BatchReady(p, u, group, o)) && SideReported(o, r))
            else RanAlone(p, group[0].index, o, r)
  {
    if !o.launchFails {
      if o.timedOut {
        TimeoutReports(p, u, group[0].index, r);
      } else if IsBatch(p, group) {
        BatchReports(p, u, group, o, codes, r);
      } else {
        SingleReports(p, u, group[0].index, o, r);
      }
    }
  }

  /** Every entry a turn leaves was there before, or the turn ran its step and reported what it records. */
  lemma TurnWitnesses(p: Plan, s: State, o: Observation, t: Outcome, r: Result)
    requires Turned(p, s, o, t) && r in t.s.completed
    ensures r in s.completed || Witnessed(p, s, o, r)
  {
    var codes :| Fit(ReadyIn(p, s, o), o, codes) && t == TurnOf(p, s, o, codes);
    if r in Taken(p, s, o).completed {
      TakenReports(p, s, o, r);
    } else if p.budget - o.clock > 0.0 {
      DispatchReports(p, Taken(p, s, o), Group(p, s), o, codes, r);
    }
  }

  /** The codes, if any, are those of the steps this group runs side by side. */
  ghost predicate FitFor(p: Plan, u: State, group: seq<Item>, o: Observation, codes: map<nat, int>)
    requires |u.keys| == |p.steps| && InRange(p, u.built) && InRange(p, group) && group != []
  {
    !o.launchFails && !o.timedOut && IsBatch(p, group) ==> Fit(BatchReady(p, u, group, o), o, codes)
  }

  // ---------------------------------------------------------------- a reported failure

  /** The answers of a turn report a failure: out of budget, not started, timed out, alone with a failing code or
      without a test, an unacceptable reply, a failing child, or a failing executable. */
  ghost predicate Failing(p: Plan, s: State, o: Observation)
    requires CanTurn(p, s)
  {
    var group := Group(p, s);
    || p.budget - o.clock <= 0.0 || o.launchFails || o.timedOut
    || (if IsBatch(p, group) then !Replied(group, o) || (exists l :: FailingChild(o, l)) || FailingSide(p, s, o)
        else FailingAlone(p.steps[group[0].index], o))
  }

  /** A step run alone failed, ran no test, or has no evidence of a passing one, other than by having no observer. */
  ghost predicate FailingAlone(step: Step, o: Observation) {
    o.returncode != 0 || Uncollected(o) || RanZeroTests(step, o) || (BadEvidence(step, o) && !o.unobservedMark)
  }

  /** A step run alone exited 0 and said that it could not run its observer. */
  ghost predicate Unseen(p: Plan, s: State, o: Observation)
    requires CanTurn(p, s)
  {
    && p.budget - o.clock > 0.0 && !o.launchFails && !o.timedOut && !IsBatch(p, Group(p, s))
    && o.returncode == 0 && o.unobservedMark
  }

  ghost predicate FailingChild(o: Observation, l: nat) {
    && o.envelope.Some? && l < |o.envelope.value.completed|
    && o.envelope.value.completed[l].Child? && o.envelope.value.completed[l].exitCode != 0
  }

  ghost predicate FailingSide(p: Plan, s: State, o: Observation)
    requires CanTurn(p, s)
  {
    exists w :: w in ReadyIn(p, s, o) && !AllGood(o, w.index)
  }

  /** A step run alone that reports a failure is marked red or stops the loop. */
  lemma SingleFailureShows(p: Plan, s: State, index: nat, o: Observation)
    requires index < |p.steps| && |s.keys| == |p.steps|
    requires FailingAlone(p.steps[index], o)
    ensures var t := SingleStep(p, s, index, o); t.s.red || !t.flow.Continue?
  {
  }

  lemma FlushShowsRed(p: Plan, s: State, raises: bool, codes: map<nat, int>, i: nat)
    requires |s.keys| == |p.steps| && InRange(p, s.built) && i < |s.built| && SideCode(codes, s.built[i].index) != 0
    ensures var t := FlushStep(p, s, raises, codes); t.s.red || !t.flow.Continue?
  {
    assert SideCodes(s.built, codes)[i] != 0;
  }

  lemma SettleKeepsRed(p: Plan, s: State, group: seq<Item>, parsed: Parsed)
    requires parsed.Parsed? && |parsed.codes| <= |group|
    ensures s.red ==> SettleStep(p, s, group, parsed).s.red
    ensures parsed.stop.ChildFailure? ==>
              var t := SettleStep(p, s, group, parsed); t.s.red || !t.flow.Continue?
  {
  }

  /** After the children of a reply, a failing child or a failing executable shows. */
  lemma SettledFailureShows(p: Plan, u: State, group: seq<Item>, parsed: Parsed, raises: bool, codes: map<nat, int>)
    requires parsed.Parsed? && |parsed.codes| <= |group| && |u.keys| == |p.steps| && InRange(p, u.built)
    requires parsed.stop.ChildFailure?
             || (FlushDue(u, parsed) && exists w :: w in u.built && SideCode(codes, w.index) != 0)
    ensures var t := AfterLocate(p, u, group, parsed, raises, codes); t.s.red || !t.flow.Continue?
  {
    if FlushDue(u, parsed) {
      var f := FlushStep(p, u, raises, codes);
      if w :| w in u.built && SideCode(codes, w.index) != 0 {
        var i :| 0 <= i < |u.built| && u.built[i] == w;
        FlushShowsRed(p, u, raises, codes, i);
      }
      SettleKeepsRed(p, f.s, group, parsed);
    } else {
      SettleKeepsRed(p, u, group, parsed);
    }
  }

  /** A failing child makes the reply a child failure. */
  lemma FailingChildStops(group: seq<Item>, o: Observation, l: nat)
    requires Replied(group, o) && FailingChild(o, l)
    ensures Reading(o.envelope.value).stop.ChildFailure?
  {
    ReadingAccepted(o.envelope.value, |group|, o.returncode);
    assert Reading(o.envelope.value).codes[l] != 0;
  }

  lemma BatchFailureShows(p: Plan, u: State, group: seq<Item>, o: Observation, codes: map<nat, int>)
    requires |u.keys| == |p.steps| && InRange(p, u.built) && InRange(p, group)
    requires Fit(BatchReady(p, u, group, o), o, codes)
    requires !Replied(group, o) || (exists l :: FailingChild(o, l))
             || (exists w :: w in BatchReady(p, u, group, o) && !AllGood(o, w.index))
    ensures var t := BatchStep(p, u, group, o, codes); t.s.red || !t.flow.Continue?
  {
    if Replied(group, o) {
      var parsed, ready := Reading(o.envelope.value), BatchReady(p, u, group, o);
      var r := ChildrenUpTo(p, u, group, Side(p, |u.built|, group, o), parsed.codes, |parsed.codes|);
      if l :| FailingChild(o, l) {
        FailingChildStops(group, o, l);
      } else {
        var w :| w in ready && !AllGood(o, w.index);
        var i :| 0 <= i < |ready| && ready[i] == w;
        assert SideCode(codes, ready[i].index) != 0;
      }
      SettledFailureShows(p, Locate(r.0, r.1, o.located), group, parsed, o.sideRaises, codes);
    }
  }

  /** A turn whose answers report a failure leaves a red or stops the loop. */
  lemma FailureShows(p: Plan, s: State, o: Observation, t: Outcome)
    requires Turned(p, s, o, t) && Failing(p, s, o)
    ensures t.s.red || !t.flow.Continue?
  {
    var codes :| Fit(ReadyIn(p, s, o), o, codes) && t == TurnOf(p, s, o, codes);
    if p.budget - o.clock > 0.0 && !o.launchFails && !o.timedOut {
      if IsBatch(p, Group(p, s)) {
        BatchFailureShows(p, Taken(p, s, o), Group(p, s), o, codes);
      } else {
        SingleFailureShows(p, Taken(p, s, o), Group(p, s)[0].index, o);
      }
    }
  }

  /** Nothing that ran is taken out of the report. */
  ghost predicate FreshStay(s: State, t: State) {
    forall r :: r in s.completed && !r.reused ==> r in t.completed
  }

  lemma FlushStays(p: Plan, s: State, raises: bool, codes: map<nat, int>)
    requires |s.keys| == |p.steps| && InRange(p, s.built)
    ensures FreshStay(s, FlushStep(p, s, raises, codes).s)
  {
    var side := SideCodes(s.built, codes);
    var added := ChildrenSorted(p, s.(built := []), s.built, {}, side, |side|);
  }

  lemma LocatedStays(p: Plan, u: State, group: seq<Item>, parsed: Parsed, raises: bool, codes: map<nat, int>)
    requires parsed.Parsed? && |parsed.codes| <= |group| && |u.keys| == |p.steps| && InRange(p, u.built)
    ensures FreshStay(u, AfterLocate(p, u, group, parsed, raises, codes).s)
  {
    FlushStays(p, u, raises, codes);
  }

  lemma BatchStays(p: Plan, s: State, group: seq<Item>, o: Observation, codes: map<nat, int>)
    requires |s.keys| == |p.steps| && InRange(p, s.built) && InRange(p, group)
    ensures FreshStay(s, BatchStep(p, s, group, o, codes).s)
  {
    if Replied(group, o) {
      var parsed, side := Reading(o.envelope.value), Side(p, |s.built|, group, o);
      var added := ChildrenSorted(p, s, group, side, parsed.codes, |parsed.codes|);
      var r := ChildrenUpTo(p, s, group, side, parsed.codes, |parsed.codes|);
      LocatedStays(p, Locate(r.0, r.1, o.located), group, parsed, o.sideRaises, codes);
    }
  }

  lemma TakenStays(p: Plan, s: State, o: Observation)
    requires CanTurn(p, s)
    ensures FreshStay(s, Taken(p, s, o))
  {
    FilterMembers(s.completed);
  }

  lemma FilterMembers(rs: seq<Result>)
    ensures forall r :: r in rs && !r.reused ==> r in Fresh(rs)
  {
    FilterCounts(rs, (r: Result) => !r.reused);
    forall r | r in rs && !r.reused
      ensures r in Fresh(rs)
    {
      assert r in multiset(rs);
      assert r in multiset(Fresh(rs));
    }
  }

  lemma SingleStays(p: Plan, s: State, index: nat, o: Observation)
    requires index < |p.steps| && |s.keys| == |p.steps|
    ensures var t := SingleStep(p, s, index, o).s;
            FreshStay(s, t) && (o.returncode == 0 && o.unobservedMark ==> HasUnseen(t.completed))
  {
    var t := SingleStep(p, s, index, o).s;
    assert t.completed[|s.completed|] in t.completed;
  }

  ghost predicate HasUnseen(rs: seq<Result>) {
    exists r :: r in rs && !r.reused && r.unobserved
  }

  lemma DispatchStays(p: Plan, u: State, group: seq<Item>, o: Observation, codes: map<nat, int>)
    requires |u.keys| == |p.steps| && InRange(p, u.built) && InRange(p, group) && group != []
    ensures var t := Dispatched(p, u, group, o, codes).s;
            && FreshStay(u, t)
            && (!o.launchFails && !o.timedOut && !IsBatch(p, group) && o.returncode == 0 && o.unobservedMark ==>
                  HasUnseen(t.completed))
  {
    if !o.launchFails && !o.timedOut {
      if IsBatch(p, group) {
        BatchStays(p, u, group, o, codes);
      } else {
        SingleStays(p, u, group[0].index, o);
      }
    }
  }

  /** No turn takes out what ran, and one whose step had no observer leaves an entry that says so. */
  lemma TurnStays(p: Plan, s: State, o: Observation, t: Outcome)
    requires Turned(p, s, o, t)
    ensures FreshStay(s, t.s)
    ensures Unseen(p, s, o) ==> HasUnseen(t.s.completed)
  {
    var codes :| Fit(ReadyIn(p, s, o), o, codes) && t == TurnOf(p, s, o, codes);
    TakenStays(p, s, o);
    if p.budget - o.clock > 0.0 {
      DispatchStays(p, Taken(p, s, o), Group(p, s), o, codes);
    }
  }

  /** The turn ran the step and everything about it was good: alone with code 0, tests run, observed and evidenced; as
      a child of an accepted reply with code 0; or side by side with every executable exiting 0. */
  ghost predicate ExecutedWell(p: Plan, s: State, o: Observation, index: nat) {
    CanTurn(p, s) && index < |p.steps| &&
    var group := Group(p, s);
    || (&& !IsBatch(p, group) && group[0].index == index && o.returncode == 0
        && !FailingAlone(p.steps[index], o) && !o.unobservedMark)
    || (exists l :: ChildExitedWell(group, o, l, index))
    || (index in Queue(ReadyIn(p, s, o)) && AllGood(o, index))
  }

  ghost predicate ChildExitedWell(group: seq<Item>, o: Observation, l: nat, index: nat) {
    && l < |group| && group[l].index == index && Replied(group, o)
    && l < |o.envelope.value.completed| && o.envelope.value.completed[l].exitCode == 0
  }

  /** A witnessed pass is a good execution. */
  lemma PassIsExecutedWell(p: Plan, s: State, o: Observation, r: Result)
    requires Witnessed(p, s, o, r) && r.returncode == Some(0) && !r.error && !r.zeroTests && r.index < |p.steps|
    ensures ExecutedWell(p, s, o, r.index)
  {
    if l :| ChildReported(Group(p, s), o, l, r) {
      assert ChildExitedWell(Group(p, s), o, l, r.index);
    }
  }

  // ---------------------------------------------------------------- the loop

  /** The children of a reply, sorted: those built for later wait, all others have an entry with their own code. */
  ghost predicate Sorted(p: Plan, s: State, group: seq<Item>, side: set<nat>, codes: seq<int>, k: nat,
                         added: seq<Result>, deferred: seq<Item>)
    requires k <= |codes| <= |group| && InRange(p, group) && |s.keys| == |p.steps|
  {
    && |added| + |deferred| == k
    && (forall w :: w in deferred <==> exists l :: 0 <= l < k && Defers(side, codes, l) && group[l] == w)
    && (forall r :: r in added <==>
          exists l :: 0 <= l < k && !Defers(side, codes, l) && r == Entry(p, s, group[l].index, Some(codes[l]), false))
  }

  predicate Defers(side: set<nat>, codes: seq<int>, l: nat)
    requires l < |codes|
  {
    l in side && codes[l] == 0
  }

  /** One more child, deferred or added. */
  lemma OneMoreSorted(p: Plan, s: State, group: seq<Item>, side: set<nat>, codes: seq<int>, k: nat, added: seq<Result>,
                      deferred: seq<Item>)
    requires k < |codes| <= |group| && InRange(p, group) && |s.keys| == |p.steps|
    requires Sorted(p, s, group, side, codes, k, added, deferred)
    ensures if Defers(side, codes, k) then Sorted(p, s, group, side, codes, k + 1, added, deferred + [group[k]])
            else Sorted(p, s, group, side, codes, k + 1,
                        added + [Entry(p, s, group[k].index, Some(codes[k]), false)], deferred)
  {
  }

  lemma AppendLast(a: seq<Result>, b: seq<Result>, x: Result)
    ensures (a + b) + [x] == a + (b + [x])
  {
  }

  ghost predicate SortedBeside(p: Plan, s: State, group: seq<Item>, side: set<nat>, codes: seq<int>, k: nat,
                               added: seq<Result>, r: (State, seq<Item>))
    requires k <= |codes| <= |group| && InRange(p, group) && |s.keys| == |p.steps|
  {
    r.0.completed == s.completed + added && r.0.keys == s.keys && Sorted(p, s, group, side, codes, k, added, r.1)
  }

  lemma ChildSorted(p: Plan, s: State, group: seq<Item>, side: set<nat>, codes: seq<int>, k: nat, before: seq<Result>,
                    r: (State, seq<Item>)) returns (added: seq<Result>)
    requires k < |codes| <= |group| && InRange(p, group) && |s.keys| == |p.steps|
    requires SortedBeside(p, s, group, side, codes, k, before, r)
    ensures SortedBeside(p, s, group, side, codes, k + 1, added, ChildStep(p, r, group[k], k in side, codes[k]))
  {
    var entry := Entry(p, s, group[k].index, Some(codes[k]), false);
    OneMoreSorted(p, s, group, side, codes, k, before, r.1);
    AppendLast(s.completed, before, entry);
    added := if Defers(side, codes, k) then before else before + [entry];
  }

  lemma {:induction false} ChildrenSorted(p: Plan, s: State, group: seq<Item>, side: set<nat>, codes: seq<int>, k: nat)
    returns (added: seq<Result>)
    requires k <= |codes| <= |group| && InRange(p, group) && |s.keys| == |p.steps|
    ensures SortedBeside(p, s, group, side, codes, k, added, ChildrenUpTo(p, s, group, side, codes, k))
  {
    if k == 0 {
      added := [];
    } else {
      var before := ChildrenSorted(p, s, group, side, codes, k - 1);
      added := ChildSorted(p, s, group, side, codes, k - 1, before, ChildrenUpTo(p, s, group, side, codes, k - 1));
    }
  }

  /** The inner loop over the children of one reply: exactly the built positions that exited 0 are deferred, and every
      other position is recorded under its own step with its own code. */
  method Children(p: Plan, s: State, group: seq<Item>, side: set<nat>, codes: seq<int>)
    returns (t: State, deferred: seq<Item>)
    requires |codes| <= |group| && InRange(p, group) && |s.keys| == |p.steps|
    ensures (t, deferred) == ChildrenUpTo(p, s, group, side, codes, |codes|)
    ensures exists added ::
              t.completed == s.completed + added && Sorted(p, s, group, side, codes, |codes|, added, deferred)
  {
    t, deferred := s, [];
    for local := 0 to |codes|
      invariant (t, deferred) == ChildrenUpTo(p, s, group, side, codes, local)
    {
      var item := group[local];
      if local in side && codes[local] == 0 {
        deferred := deferred + [item];
      } else {
        t := Record(t, Entry(p, t, item.index, Some(codes[local]), false));
      }
    }
    ghost var added := ChildrenSorted(p, s, group, side, codes, |codes|);
  }

  /** All executables of job `i` are good. */
  ghost predicate OwnGood(owner: seq<nat>, fates: seq<ParallelRun.Fate>, i: nat)
    requires |owner| == |fates|
  {
    forall k: nat :: k < |owner| && owner[k] == i ==> ParallelRun.Good(fates[k])
  }

  /** One more job's executables at the end of the flat list. */
  lemma AppendGood(owner: seq<nat>, fates: seq<ParallelRun.Fate>, j: nat, more: seq<ParallelRun.Fate>, owner': seq<nat>)
    requires |owner| == |fates| && forall k :: 0 <= k < |owner| ==> owner[k] < j
    requires |owner'| == |owner| + |more| && owner'[..|owner|] == owner
    requires forall k :: |owner| <= k < |owner'| ==> owner'[k] == j
    ensures forall i: nat :: i < j ==> (OwnGood(owner', fates + more, i) <==> OwnGood(owner, fates, i))
    ensures OwnGood(owner', fates + more, j) <==> forall k :: 0 <= k < |more| ==> ParallelRun.Good(more[k])
  {
    var fates' := fates + more;
    assert forall k :: 0 <= k < |owner| ==> owner'[k] == owner[k] && fates'[k] == fates[k];
    assert forall k :: 0 <= k < |more| ==> owner'[|owner| + k] == j && fates'[|owner| + k] == more[k];
    if OwnGood(owner', fates', j) {
      forall k | 0 <= k < |more|
        ensures ParallelRun.Good(more[k])
      {
        assert owner'[|owner| + k] == j;
      }
    }
  }

  /** The executables of the waiting steps in one list, each with its job. */
  method Flatten(ready: seq<Item>, o: Observation) returns (owner: seq<nat>, fates: seq<ParallelRun.Fate>)
    ensures |owner| == |fates| && forall k :: 0 <= k < |owner| ==> owner[k] < |ready|
    ensures forall i :: 0 <= i < |ready| ==> (OwnGood(owner, fates, i) <==> AllGood(o, ready[i].index))
  {
    owner, fates := [], [];
    for j := 0 to |ready|
      invariant |owner| == |fates| && forall k :: 0 <= k < |owner| ==> owner[k] < j
      invariant forall i :: 0 <= i < j ==> (OwnGood(owner, fates, i) <==> AllGood(o, ready[i].index))
    {
      var more := Executables(o, ready[j].index);
      var owner' := owner + seq(|more|, _ => j);
      AppendGood(owner, fates, j, more, owner');
      owner, fates := owner', fates + more;
    }
  }

  /** `_run_parallel` over the waiting steps: a step's code is 0 exactly when all its executables spawned and
      exited 0. */
  method RunBuilt(p: Plan, ready: seq<Item>, o: Observation) returns (codes: map<nat, int>)
    ensures Fit(ready, o, codes)
  {
    var owner, fates := Flatten(ready, o);
    var limit := if p.parallelSteps then ParallelLimit(o.freeGb, p.reserve) else 1;
    var c := ParallelRun.Config(|ready|, owner, fates, limit, p.reserve);
    var ends := ParallelRun.RunParallel(c, (k: nat) => if k < |o.readings| then o.readings[k] else None);
    codes := map[];
    for j := 0 to |ready|
      invariant forall i :: 0 <= i < j ==> (SideCode(codes, ready[i].index) == 0 <==> AllGood(o, ready[i].index))
    {
      assert ends[j] == 0 <==> ParallelRun.JobGood(c, j);
      assert ParallelRun.JobGood(c, j) <==> OwnGood(owner, fates, j);
      codes := codes[ready[j].index := ends[j]];
    }
  }

  /** One slot batch: validate the reply, then record, defer, flush and settle. */
  method Batch(p: Plan, s: State, group: seq<Item>, o: Observation) returns (t: Outcome)
    requires |s.keys| == |p.steps| && InRange(p, s.built) && InRange(p, group)
    ensures exists codes :: Fit(BatchReady(p, s, group, o), o, codes) && t == BatchStep(p, s, group, o, codes)
  {
    var codes: map<nat, int> := map[];
    var parsed := Refused;
    if o.envelope.Some? {
      parsed := Validate(o.envelope.value, |group|, o.returncode);
    }
    if parsed.Refused? {
      t := Outcome(s, Break);
      assert Fit(BatchReady(p, s, group, o), o, codes) && t == BatchStep(p, s, group, o, codes);
      return;
    }
    var u, deferred := Children(p, s, group, Side(p, |s.built|, group, o), parsed.codes);
    u := Locate(u, deferred, o.located);
    var f := Outcome(u, Continue);
    if FlushDue(u, parsed) {
      codes := RunBuilt(p, u.built, o);
      f := FlushStep(p, u, o.sideRaises, codes);
    }
    t := if f.flow.Continue? then SettleStep(p, f.s, group, parsed) else f;
    assert Fit(BatchReady(p, s, group, o), o, codes) && t == BatchStep(p, s, group, o, codes);
  }

  /** The child has ended, timed out or never started: hand its group to the batch or the single branch. */
  method Dispatch(p: Plan, u: State, group: seq<Item>, o: Observation) returns (t: Outcome)
    requires |u.keys| == |p.steps| && InRange(p, u.built) && InRange(p, group) && group != []
    ensures exists codes :: FitFor(p, u, group, o, codes) && t == Dispatched(p, u, group, o, codes)
  {
    ghost var codes: map<nat, int> := map[];
    if o.launchFails {
      t := Outcome(u, Raise);
    } else if o.timedOut {
      t := TimedOut(p, u, group[0].index);
    } else if IsBatch(p, group) {
      t := Batch(p, u, group, o);
      codes :| Fit(BatchReady(p, u, group, o), o, codes) && t == BatchStep(p, u, group, o, codes);
    } else {
      t := SingleStep(p, u, group[0].index, o);
    }
    assert FitFor(p, u, group, o, codes) && t == Dispatched(p, u, group, o, codes);
  }

  /** One turn of the work loop: exactly the turn its answers determine, and it keeps the books, hides no red, and
      lowers the measure when the loop goes on. */
  method Iterate(p: Plan, s: State, o: Observation) returns (t: Outcome)
    requires Valid(p, s) && s.work != [] && s.status == Incomplete
    ensures Turned(p, s, o, t) && Kept(p, s, Measure(s), t)
  {
    ghost var codes: map<nat, int> := map[];
    if p.budget - o.clock <= 0.0 {
      t := Outcome(s.(status := BudgetExceeded), Break);
    } else {
      t := Dispatch(p, Taken(p, s, o), Group(p, s), o);
      codes :| FitFor(p, Taken(p, s, o), Group(p, s), o, codes)
               && t == Dispatched(p, Taken(p, s, o), Group(p, s), o, codes);
    }
    ghost var kept := TurnKeeps(p, s, o, codes);
    assert Fit(ReadyIn(p, s, o), o, codes);
  }
}
