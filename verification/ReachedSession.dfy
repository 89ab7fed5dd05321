/**
 * A whole run of `run_reached.py` and the report file successive runs share: what `passed` means,
 * and why a result reused from the file always goes back to a real, clean execution.
 */
module ReachedSession {
  import opened Lists
  import opened ReachedPlan
  import opened ReachedRun
  import opened BatchReply
  import ParallelRun

  // ---------------------------------------------------------------- conservation, read per index

  /** Conservation read off for one planned index: it is in exactly one place, once. */
  lemma EachIndexOnce(p: Plan, s: State, i: nat)
    requires Conserved(p, s) && i < |p.steps|
    ensures multiset(s.pending)[i] + multiset(Indices(s.completed))[i] + multiset(s.skipped)[i] == 1
  {
    RangeCounts(|p.steps|);
    var all := multiset(s.pending) + multiset(Indices(s.completed)) + multiset(s.skipped);
    assert all[i] == multiset(Range(|p.steps|))[i];
  }

  /** An index completes at most once, and a completed one is planned. */
  lemma CompletesAtMostOnce(p: Plan, s: State, j: nat, k: nat)
    requires Conserved(p, s) && j < k < |s.completed|
    ensures s.completed[j].index != s.completed[k].index && s.completed[j].index < |p.steps|
  {
    var done := Indices(s.completed);
    RangeCounts(|p.steps|);
    assert forall x :: multiset(done)[x] <= multiset(Range(|p.steps|))[x];
    forall x
      ensures multiset(done)[x] <= 1
    {
    }
    DistinctCounts(done);
    assert done[j] in multiset(done);
    assert done[j] != done[k];
  }

  // ---------------------------------------------------------------- the work loop to its end

  /** A state the loop may start from: ready to run, or refused by the preflight. */
  ghost predicate Startable(p: Plan, s: State) {
    || (s.status == Incomplete && Valid(p, s))
    || (s.status == Blocked && Recorded(p, s) && s.work == [] && s.built == [] && !s.red)
  }

  /** The queue ran dry: no built executable is left unrun and only put-back indices are pending. */
  ghost predicate Drained(p: Plan, s: State) {
    s.work == [] && s.built == [] && multiset(s.pending) == multiset(s.returned) && Greens(s)
  }

  /** One turn of a run: the state it began in and what the environment answered. */
  datatype Turn = Turn(before: State, o: Observation)

  /** Where turn `k` of a run that ended in `t` left the loop. */
  function After(turns: seq<Turn>, k: nat, t: Outcome): (u: Outcome) {
    if k + 1 < |turns| then Outcome(turns[k + 1].before, Continue) else t
  }

  ghost predicate TurnFits(p: Plan, turn: Turn, u: Outcome) {
    && Valid(p, turn.before) && turn.before.work != [] && turn.before.status == Incomplete
    && Turned(p, turn.before, turn.o, u)
  }

  /** The turns lead from `start` to `t`, each exactly as its answers determine. */
  ghost predicate Traced(p: Plan, start: State, turns: seq<Turn>, t: Outcome) {
    && (if turns == [] then t == Outcome(start, Continue) else turns[0].before == start)
    && forall k {:trigger TurnFits(p, turns[k], After(turns, k, t))} ::
         0 <= k < |turns| ==> TurnFits(p, turns[k], After(turns, k, t))
  }

  /** The loop is over: it stopped, or nothing is queued. */
  predicate Ended(t: Outcome) {
    t.flow.Continue? ==> t.s.work == []
  }

  /** One more turn at the end. */
  lemma TraceGrows(p: Plan, start: State, turns: seq<Turn>, s: State, o: Observation, t: Outcome)
    requires Traced(p, start, turns, Outcome(s, Continue)) && TurnFits(p, Turn(s, o), t)
    ensures Traced(p, start, turns + [Turn(s, o)], t)
  {
    var all := turns + [Turn(s, o)];
    forall k | 0 <= k < |all|
      ensures TurnFits(p, all[k], After(all, k, t))
    {
      if k < |turns| {
        assert TurnFits(p, turns[k], After(turns, k, Outcome(s, Continue)));
      }
    }
  }

  /** `while work: ... else: ...`, for every sequence of answers of the environment: it ends, every turn is the one its
      answers determine, and a queue that ran dry leaves nothing built and nothing pending but what was put back. */
  method WorkLoop(p: Plan, s: State, env: nat -> Observation) returns (t: Outcome, ghost turns: seq<Turn>)
    requires Startable(p, s)
    ensures Traced(p, s, turns, t) && Ended(t) && forall k :: 0 <= k < |turns| ==> turns[k].o == env(k)
    ensures Recorded(p, t.s) && Stopped(t) && RedKept(p, s, t.s)
    ensures t.flow.Continue? && s.status == Blocked ==> t.s == s
    ensures t.flow.Continue? && s.status == Incomplete ==> Drained(p, t.s) && t.s.status == Incomplete
  {
    t, turns := Outcome(s, Continue), [];
    var k := 0;
    while t.s.work != [] && t.flow.Continue?
      invariant Traced(p, s, turns, t) && |turns| == k && forall i :: 0 <= i < k ==> turns[i].o == env(i)
      invariant InLoop(p, s, t)
      decreases if t.flow.Continue? then 1 + Measure(t.s) else 0
    {
      var before := t.s;
      t := Advance(p, s, turns, before, env(k));
      turns := turns + [Turn(before, env(k))];
      k := k + 1;
    }
    if t.flow.Continue? && s.status == Incomplete {
      EmptyDrains(p, t.s);
    }
  }

  /** One turn, added to those before. */
  method Advance(p: Plan, start: State, ghost turns: seq<Turn>, before: State, o: Observation) returns (t: Outcome)
    requires Traced(p, start, turns, Outcome(before, Continue)) && InLoop(p, start, Outcome(before, Continue))
    requires before.work != []
    ensures Traced(p, start, turns + [Turn(before, o)], t) && InLoop(p, start, t)
    ensures t.flow.Continue? ==> Measure(t.s) < Measure(before)
  {
    t := Iterate(p, before, o);
    TraceGrows(p, start, turns, before, o, t);
    LoopStep(p, start, before, t);
  }

  /** What holds between two turns. */
  ghost predicate InLoop(p: Plan, s: State, t: Outcome) {
    && Recorded(p, t.s) && Stopped(t) && RedKept(p, s, t.s)
    && (t.flow.Continue? ==> Startable(p, t.s) && t.s.status == s.status)
    && (s.status == Blocked ==> t == Outcome(s, Continue))
  }

  lemma LoopStep(p: Plan, s: State, before: State, t: Outcome)
    requires InLoop(p, s, Outcome(before, Continue)) && before.status == Incomplete
    requires Kept(p, before, Measure(before), t)
    ensures InLoop(p, s, t)
  {
  }

  lemma EmptyDrains(p: Plan, s: State)
    requires Valid(p, s) && s.work == []
    ensures Drained(p, s)
  {
    assert multiset(Queue(s.work)) == multiset{};
    assert multiset(Queue(s.built)) == multiset{};
  }

  // ---------------------------------------------------------------- what a traced run tells

  lemma TurnedKept(p: Plan, turn: Turn, u: Outcome)
    requires TurnFits(p, turn, u)
    ensures Kept(p, turn.before, Measure(turn.before), u)
  {
    var codes :| Fit(ReadyIn(p, turn.before, turn.o), turn.o, codes) && u == TurnOf(p, turn.before, turn.o, codes);
    var t := TurnKeeps(p, turn.before, turn.o, codes);
  }

  /** Some turn of the run reported success for the very step of `r`. */
  ghost predicate WitnessedIn(p: Plan, turns: seq<Turn>, r: Result) {
    exists k :: 0 <= k < |turns| && WitnessedAt(p, turns[k], r)
  }

  ghost predicate WitnessedAt(p: Plan, turn: Turn, r: Result) {
    Witnessed(p, turn.before, turn.o, r)
  }

  lemma TurnFitWitnesses(p: Plan, turn: Turn, u: Outcome, r: Result)
    requires TurnFits(p, turn, u) && r in u.s.completed
    ensures r in turn.before.completed || WitnessedAt(p, turn, r)
  {
    TurnWitnesses(p, turn.before, turn.o, u, r);
  }

  lemma TraceWitnesses(p: Plan, start: State, turns: seq<Turn>, t: Outcome, k: nat, r: Result)
    requires Traced(p, start, turns, t) && k < |turns| && r in After(turns, k, t).s.completed
    ensures r in turns[k].before.completed || WitnessedAt(p, turns[k], r)
  {
    assert TurnFits(p, turns[k], After(turns, k, t));
    TurnFitWitnesses(p, turns[k], After(turns, k, t), r);
  }

  lemma {:induction false} WitnessedUpTo(p: Plan, start: State, turns: seq<Turn>, t: Outcome, k: nat, r: Result)
    requires Traced(p, start, turns, t) && k < |turns| && r in After(turns, k, t).s.completed
    ensures r in start.completed || WitnessedIn(p, turns, r)
  {
    TraceWitnesses(p, start, turns, t, k, r);
    if k > 0 && r in turns[k].before.completed {
      WitnessedUpTo(p, start, turns, t, k - 1, r);
    }
  }

  /** Every entry of a run was there at the start or is witnessed by one of its turns. */
  lemma EntriesWitnessed(p: Plan, start: State, turns: seq<Turn>, t: Outcome, r: Result)
    requires Traced(p, start, turns, t) && r in t.s.completed
    ensures r in start.completed || WitnessedIn(p, turns, r)
  {
    if turns != [] {
      WitnessedUpTo(p, start, turns, t, |turns| - 1, r);
    }
  }

  lemma {:induction false} RedStays(p: Plan, start: State, turns: seq<Turn>, t: Outcome, k: nat)
    requires Traced(p, start, turns, t) && k < |turns| && After(turns, k, t).s.red
    ensures t.s.red
    decreases |turns| - k
  {
    if k + 1 < |turns| {
      assert TurnFits(p, turns[k + 1], After(turns, k + 1, t));
      TurnedKept(p, turns[k + 1], After(turns, k + 1, t));
      RedStays(p, start, turns, t, k + 1);
    }
  }

  // ---------------------------------------------------------------- the verdict

  /** What the run reads after the loop: did HEAD move, is the tree clean, how late is it. */
  datatype Ending = Ending(headUnchanged: bool, clean: bool, elapsed: real)

  predicate AnyUnobserved(rs: seq<Result>) {
    exists r :: r in rs && r.unobserved
  }

  /** The loop's own verdict: the `else` of the while, then the red that no later stop hides. */
  function LoopStatus(s: State, flow: Flow): (status: Status) {
    if s.red then Failed
    else if flow.Break? || s.status == Blocked then s.status
    else if AnyUnobserved(s.completed) || s.skipped != [] || s.pending != [] then Incomplete
    else Passed
  }

  /** The same result, up to its key and its mark. */
  predicate SameResult(a: Result, b: Result) {
    a == b.(proofKey := a.proofKey, reusable := a.reusable)
  }

  ghost predicate SameResults(a: seq<Result>, b: seq<Result>) {
    |a| == |b| && forall i :: 0 <= i < |a| ==> SameResult(a[i], b[i])
  }

  /** Incomplete executable identity: only a cleanup hiccup keeps a pass, and every key is dropped. */
  function ApplyIdentity(s: State): (t: State)
    ensures t == s.(status := t.status, completed := t.completed) && SameResults(t.completed, s.completed)
  {
    if s.identityComplete then s
    else
      s.(status := if s.status == Passed && !s.cleanupOnly then Incomplete else s.status,
         completed := seq(|s.completed|, i requires 0 <= i < |s.completed| =>
                            s.completed[i].(proofKey := None, reusable := false)))
  }

  function ApplyEnding(p: Plan, s: State, e: Ending): (t: State) {
    if !e.headUnchanged || !e.clean then s.(status := Incomplete)
    else if e.elapsed > p.budget && s.status in {Passed, Planned} then s.(status := BudgetExceeded)
    else s
  }

  predicate AllKeyed(rs: seq<Result>) {
    forall r :: r in rs ==> r.proofKey.Some?
  }

  predicate Reusable(r: Result) {
    r.returncode == Some(0) && !r.error && !r.zeroTests && r.proofKey.Some?
  }

  /** Passes become reusable only now: HEAD unchanged, tree clean, identity complete, all keyed. */
  function MarkReusable(s: State, e: Ending): (t: State)
    ensures t == s.(completed := t.completed) && SameResults(t.completed, s.completed)
    ensures t != s ==> e.headUnchanged && e.clean && s.identityComplete
  {
    if e.headUnchanged && e.clean && s.identityComplete && AllKeyed(s.completed) then
      s.(completed := seq(|s.completed|, i requires 0 <= i < |s.completed| =>
                            if Reusable(s.completed[i]) then s.completed[i].(reusable := true) else s.completed[i]))
    else s
  }

  /** From the end of the loop to the written report; an exception skips the verdict and the marks. */
  function Conclude(p: Plan, t: Outcome, e: Ending): (s: State) {
    if t.flow.Raise? then t.s.(status := Incomplete)
    else MarkReusable(ApplyEnding(p, ApplyIdentity(t.s.(status := LoopStatus(t.s, t.flow))), e), e)
  }

  /** A loop result as `WorkLoop` leaves it. */
  ghost predicate LoopResult(p: Plan, t: Outcome) {
    && Recorded(p, t.s) && Stopped(t)
    && (t.flow.Continue? && t.s.status != Blocked ==> Drained(p, t.s))
    && (t.flow.Continue? ==> t.s.status in {Incomplete, Blocked})
  }

  /** A run is passed exactly when its loop drained with nothing red, missing or unobserved. */
  lemma PassedExactly(p: Plan, t: Outcome, e: Ending)
    requires LoopResult(p, t)
    ensures Conclude(p, t, e).status == Passed <==>
            && t.flow.Continue? && t.s.status != Blocked
            && !t.s.red && t.s.pending == [] && t.s.skipped == [] && !AnyUnobserved(t.s.completed)
            && (t.s.identityComplete || t.s.cleanupOnly)
            && e.headUnchanged && e.clean && e.elapsed <= p.budget
  {
    var s0 := t.s.(status := LoopStatus(t.s, t.flow));
    var s1 := ApplyIdentity(s0);
    var s2 := ApplyEnding(p, s1, e);
    assert !t.flow.Raise? ==> Conclude(p, t, e).status == s2.status;
    assert s2.status == Passed <==> s1.status == Passed && e.headUnchanged && e.clean && e.elapsed <= p.budget;
    assert s1.status == Passed <==> s0.status == Passed && (s0.identityComplete || s0.cleanupOnly);
  }

  /** Entry by entry the written report agrees with the loop's; only keys and marks may differ. */
  lemma ReportKeepsResults(p: Plan, t: Outcome, e: Ending)
    ensures var f := Conclude(p, t, e);
            f.pending == t.s.pending && f.skipped == t.s.skipped && SameResults(f.completed, t.s.completed)
  {
    if !t.flow.Raise? {
      var s0 := t.s.(status := LoopStatus(t.s, t.flow));
      VerdictKeepsResults(p, s0, e);
    }
  }

  lemma VerdictKeepsResults(p: Plan, s0: State, e: Ending)
    ensures var f := MarkReusable(ApplyEnding(p, ApplyIdentity(s0), e), e);
            f.pending == s0.pending && f.skipped == s0.skipped && SameResults(f.completed, s0.completed)
  {
    var s1 := ApplyIdentity(s0);
    var s2 := ApplyEnding(p, s1, e);
    SameResultsTransitive(MarkReusable(s2, e).completed, s1.completed, s0.completed);
  }

  lemma SameResultsTransitive(a: seq<Result>, b: seq<Result>, c: seq<Result>)
    requires SameResults(a, b) && SameResults(b, c)
    ensures SameResults(a, c)
  {
  }

  /** A red recorded in any turn under keep-going is never hidden by what follows. */
  lemma RedIsNeverPassed(p: Plan, start: State, turns: seq<Turn>, t: Outcome, k: nat, e: Ending)
    requires Traced(p, start, turns, t) && k < |turns| && After(turns, k, t).s.red
    ensures Conclude(p, t, e).status in {Failed, Incomplete}
  {
    RedStays(p, start, turns, t, k);
    RedConcludes(p, t, e);
  }

  lemma RedConcludes(p: Plan, t: Outcome, e: Ending)
    requires t.s.red
    ensures Conclude(p, t, e).status in {Failed, Incomplete}
  {
  }

  /**
   * `passed` is sound: every planned step has exactly one entry, each entry is a pass, nothing is
   * pending or skipped, the budget held, HEAD and worktree did not change, and no red was recorded.
   */
  lemma PassedIsSound(p: Plan, t: Outcome, e: Ending)
    requires LoopResult(p, t) && Conclude(p, t, e).status == Passed
    ensures var f := Conclude(p, t, e);
            && f.pending == [] && f.skipped == [] && !t.s.red
            && multiset(Indices(f.completed)) == multiset(Range(|p.steps|))
            && (forall i :: 0 <= i < |f.completed| ==> Pass(f.completed[i]))
            && e.headUnchanged && e.clean && e.elapsed <= p.budget
  {
    PassedExactly(p, t, e);
    ReportKeepsResults(p, t, e);
    var f := Conclude(p, t, e);
    assert Indices(f.completed) == Indices(t.s.completed);
    forall i | 0 <= i < |f.completed|
      ensures Pass(f.completed[i])
    {
      assert SameResult(f.completed[i], t.s.completed[i]);
      assert t.s.completed[i] in t.s.completed;
      assert Clean(t.s.completed[i]);
    }
  }

  // ---------------------------------------------------------------- before the loop

  function ReusedEntry(p: Plan, index: nat): (r: Result)
    requires index < |p.steps| && KeyOf(p.fp, p.steps[index]) in p.reuse
  {
    var key := KeyOf(p.fp, p.steps[index]);
    Result(index, p.steps[index].argv, p.steps[index].cwd, Some(0), false, false, false, true,
           p.reuse[key].vitest, Some(key), false)
  }

  /** Plan, skips and keys, before anything is reused. */
  function InitialState(p: Plan, identityComplete: bool, cleanupOnly: bool, browserReady: bool): (s: State) {
    var n := |p.steps|;
    var unobservable := (i: nat) => i < n && p.steps[i].browser && !browserReady;
    var observable := (i: nat) => !(i < n && p.steps[i].browser && !browserReady);
    State(Filter(Range(n), observable), [], Filter(Range(n), unobservable), [], [], [],
          seq(n, i requires 0 <= i < n => if identityComplete then Some(KeyOf(p.fp, p.steps[i])) else None),
          identityComplete, cleanupOnly, Incomplete, false)
  }

  lemma InitialRecorded(p: Plan, identityComplete: bool, cleanupOnly: bool, browserReady: bool)
    ensures Recorded(p, InitialState(p, identityComplete, cleanupOnly, browserReady))
  {
    var n := |p.steps|;
    FilterSplits(Range(n), (i: nat) => !(i < n && p.steps[i].browser && !browserReady),
                 (i: nat) => i < n && p.steps[i].browser && !browserReady);
    var s := InitialState(p, identityComplete, cleanupOnly, browserReady);
    assert Indices(s.completed) == [];
  }

  lemma InitialSkips(p: Plan, identityComplete: bool, cleanupOnly: bool, browserReady: bool)
    ensures forall i: nat :: i in InitialState(p, identityComplete, cleanupOnly, browserReady).skipped <==>
                             i < |p.steps| && p.steps[i].browser && !browserReady
  {
    RangeMembers(|p.steps|);
  }

  function Items(order: seq<nat>): (w: seq<Item>)
    ensures |w| == |order| && forall i :: 0 <= i < |w| ==> w[i] == Item(order[i], false)
  {
    seq(|order|, i requires 0 <= i < |order| => Item(order[i], false))
  }

  /** Keeping the members of `some` from a list that holds each of `all` once keeps each of them once. */
  lemma KeepMembers(order: seq<nat>, some: seq<nat>, n: nat)
    requires multiset(order) == multiset(Range(n)) && multiset(some) <= multiset(Range(n))
    ensures multiset(Filter(order, (i: nat) => i in some)) == multiset(some)
  {
    var kept: seq<nat> := Filter(order, (i: nat) => i in some);
    FilterCounts(order, (i: nat) => i in some);
    RangeCounts(n);
    forall i: nat
      ensures multiset(kept)[i] == multiset(some)[i]
    {
      assert multiset(some)[i] <= multiset(Range(n))[i];
      assert i in some <==> i in multiset(some);
    }
  }

  /** `[entry for entry in order if entry["index"] in pending]`. */
  function InitialQueue(p: Plan, pending: seq<nat>): (work: seq<Item>) {
    Items(Filter(ExecutionOrder(p.steps, p.batchMode), (i: nat) => i in pending))
  }

  /** The initial queue holds every pending index once. */
  lemma WorkIsPending(p: Plan, s: State)
    requires Conserved(p, s)
    ensures multiset(Queue(InitialQueue(p, s.pending))) == multiset(s.pending) && InRange(p, InitialQueue(p, s.pending))
  {
    var order: seq<nat> := ExecutionOrder(p.steps, p.batchMode);
    var kept := Filter(order, (i: nat) => i in s.pending);
    ExecutionOrderIsPermutation(p.steps, p.batchMode);
    KeepMembers(order, s.pending, |p.steps|);
    assert Queue(Items(kept)) == kept;
    assert forall w :: w in Items(kept) ==> w.index in kept;
  }

  /** What a run starts from: exactly the steps without an observer skipped,
      exactly the vouched ones of the rest reused,
      the others queued in execution order unless the preflight blocks, and keys only with a complete identity. */
  ghost predicate Prepared(p: Plan, identityComplete: bool, cleanupOnly: bool, browserReady: bool, blocked: bool,
                           s: State) {
    && Startable(p, s) && (s.status == Blocked <==> blocked) && s.returned == [] && s.built == [] && !s.red
    && ReusedOnly(p, s.completed) && (forall i: nat :: i in s.pending ==> !Vouchable(p, i))
    && s.identityComplete == identityComplete && s.cleanupOnly == cleanupOnly
    && (forall i :: 0 <= i < |s.keys| ==> (s.keys[i].Some? <==> identityComplete))
    && (forall i: nat :: i in s.skipped <==> i < |p.steps| && p.steps[i].browser && !browserReady)
    && s.work == if blocked then [] else InitialQueue(p, s.pending)
  }

  /** Everything before the loop: skip unobservable steps, reuse vouched results, queue the rest. */
  method Prepare(p: Plan, identityComplete: bool, cleanupOnly: bool, browserReady: bool, blocked: bool)
    returns (s: State)
    requires !identityComplete ==> p.reuse == map[]
    ensures Prepared(p, identityComplete, cleanupOnly, browserReady, blocked, s)
  {
    s := InitialState(p, identityComplete, cleanupOnly, browserReady);
    InitialRecorded(p, identityComplete, cleanupOnly, browserReady);
    InitialSkips(p, identityComplete, cleanupOnly, browserReady);
    s := ReuseAll(p, s);
    WorkIsPending(p, s);
    s := s.(work := InitialQueue(p, s.pending));
    assert Queue(s.built) == [];
    assert Recorded(p, s);
    if blocked {
      s := s.(status := Blocked, work := []);
    }
  }

  ghost predicate Vouchable(p: Plan, i: nat) {
    i < |p.steps| && KeyOf(p.fp, p.steps[i]) in p.reuse
  }

  ghost predicate ReusedOnly(p: Plan, rs: seq<Result>) {
    forall r :: r in rs ==> Pass(r) && Vouchable(p, r.index) && r == ReusedEntry(p, r.index)
  }

  /** Among the pending indices, only those still `ahead` may be vouched for. */
  ghost predicate Swept(p: Plan, s: State, ahead: seq<nat>) {
    && multiset(ahead) <= multiset(s.pending)
    && forall i: nat :: i in s.pending && i !in ahead ==> !Vouchable(p, i)
  }

  lemma SweepReused(p: Plan, s: State, todo: seq<nat>, k: nat)
    requires Recorded(p, s) && ReusedOnly(p, s.completed) && k < |todo|
    requires Swept(p, s, todo[k..]) && Vouchable(p, todo[k])
    ensures var t := Record(s, ReusedEntry(p, todo[k]));
            Recorded(p, t) && ReusedOnly(p, t.completed) && Swept(p, t, todo[k + 1..])
  {
    var index := todo[k];
    assert todo[k..] == [index] + todo[k + 1..];
    assert index in multiset(s.pending);
    RecordPending(p, s, ReusedEntry(p, index));
    PendingOnce(p, s, index);
    var t := Record(s, ReusedEntry(p, index));
    forall i: nat | i in t.pending && i !in todo[k + 1..]
      ensures !Vouchable(p, i)
    {
      assert i in multiset(t.pending);
      assert i in s.pending && i !in todo[k..];
    }
  }

  lemma SweepOther(p: Plan, s: State, todo: seq<nat>, k: nat)
    requires k < |todo| && Swept(p, s, todo[k..]) && !Vouchable(p, todo[k])
    ensures Swept(p, s, todo[k + 1..])
  {
    assert todo[k..] == [todo[k]] + todo[k + 1..];
    assert multiset(todo[k + 1..]) <= multiset(todo[k..]);
  }

  /** `for index in list(pending)`: a vouched pass moves from pending to completed. */
  method ReuseAll(p: Plan, s: State) returns (t: State)
    requires Recorded(p, s) && s.completed == []
    ensures Recorded(p, t) && t == s.(pending := t.pending, completed := t.completed)
    ensures ReusedOnly(p, t.completed)
    ensures forall i: nat :: i in t.pending ==> !Vouchable(p, i)
  {
    t := s;
    var todo := s.pending;
    assert todo[0..] == todo;
    for k := 0 to |todo|
      invariant Recorded(p, t) && t == s.(pending := t.pending, completed := t.completed)
      invariant ReusedOnly(p, t.completed) && Swept(p, t, todo[k..])
    {
      assert todo[k] in todo[k..] && todo[k] in multiset(todo[k..]);
      PendingIsPlanned(p, t, todo[k]);
      if KeyOf(p.fp, p.steps[todo[k]]) in p.reuse {
        SweepReused(p, t, todo, k);
        t := Record(t, ReusedEntry(p, todo[k]));
      } else {
        SweepOther(p, t, todo, k);
      }
    }
  }

  lemma PendingIsPlanned(p: Plan, s: State, i: nat)
    requires Conserved(p, s) && i in s.pending
    ensures i < |p.steps|
  {
    assert i in multiset(s.pending);
    assert i in multiset(Range(|p.steps|));
  }

  lemma PendingOnce(p: Plan, s: State, i: nat)
    requires Conserved(p, s) && i in s.pending
    ensures i !in Remove(s.pending, i)
  {
    PendingIsPlanned(p, s, i);
    EachIndexOnce(p, s, i);
    assert i in multiset(s.pending);
    RemoveCounts(s.pending, i);
    assert multiset(s.pending)[i] == 1;
    assert multiset(Remove(s.pending, i)) == multiset(s.pending) - multiset{i};
    assert i !in multiset(Remove(s.pending, i));
  }

  // ---------------------------------------------------------------- the shared report file

  /** One whole run: what it started from, its turns with the environment's answers, and how it ended. */
  datatype RunRecord = RunRecord(plan: Plan, start: State, turns: seq<Turn>, end: Outcome, ending: Ending)

  /** The record is of a run: it starts with nothing but reused results, and its turns lead to its end. */
  ghost predicate Happened(run: RunRecord) {
    && Startable(run.plan, run.start) && ReusedOnly(run.plan, run.start.completed)
    && Traced(run.plan, run.start, run.turns, run.end) && Ended(run.end)
  }

  /** `x` is a real execution: a turn of this run executed its very step well, and the run ended on an unchanged, clean
      tree. */
  ghost predicate CleanExecution(run: RunRecord, x: Result) {
    && Happened(run) && x in run.end.s.completed && !x.reused && Reusable(x) && WitnessedIn(run.plan, run.turns, x)
    && x.index < |run.plan.steps| && ExecutedIn(run, x.index)
    && run.ending.headUnchanged && run.ending.clean
  }

  /** Some earlier run really executed the same work, passed, and ended on an unchanged, clean tree. */
  ghost predicate ProvedBefore(history: seq<RunRecord>, fp: Fingerprint, step: Step) {
    exists i, x :: 0 <= i < |history| && Proves(history[i], x, fp, step)
  }

  /** `x` is a clean execution, in this run, of a step that is the same work. */
  ghost predicate Proves(run: RunRecord, x: Result, fp: Fingerprint, step: Step) {
    CleanExecution(run, x) && SameWork(run.plan.fp, run.plan.steps[x.index], fp, step)
  }

  /** The work that a key stands for was proved before. */
  ghost predicate Vouched(history: seq<RunRecord>, key: ProofKey) {
    ProvedBefore(history, Fingerprint(key.tree, key.tools, key.env), Step(key.argv, key.cwd, key.slot, false))
  }

  /** What acceptance asks for: a marked, keyed pass, and of vitest evidence that some tests passed and none failed. */
  lemma AcceptsExactly(e: Result)
    ensures Accepts(e) <==>
            && e.reusable && e.returncode == Some(0) && !e.error && !e.zeroTests && e.proofKey.Some?
            && (VitestStep(e.argv, e.cwd) ==>
                  exists n: nat, ok :: n > 0 && e.vitest == Some(Vitest(n, 0, 0, ok)))
  {
    if Accepts(e) && VitestStep(e.argv, e.cwd) {
      assert e.vitest == Some(Vitest(e.vitest.value.passed, 0, 0, e.vitest.value.success));
    }
  }

  /** An entry `_reusable_results` accepts. */
  predicate Accepts(e: Result) {
    && e.reusable && Reusable(e)
    && (VitestStep(e.argv, e.cwd) ==>
          e.vitest.Some? && e.vitest.value.passed + e.vitest.value.failed > 0
          && e.vitest.value.failed == 0 && e.vitest.value.errors == 0)
  }

  lemma ProvedGrows(history: seq<RunRecord>, run: RunRecord, fp: Fingerprint, step: Step)
    requires ProvedBefore(history, fp, step)
    ensures ProvedBefore(history + [run], fp, step)
  {
    var i, x :| 0 <= i < |history| && Proves(history[i], x, fp, step);
    assert Proves((history + [run])[i], x, fp, step);
  }

  /** A vouched key of a step says that this very work was proved before. */
  lemma VouchedKey(history: seq<RunRecord>, fp: Fingerprint, step: Step)
    ensures Vouched(history, KeyOf(fp, step)) <==> ProvedBefore(history, fp, step)
  {
    var key := KeyOf(fp, step);
    var f, s := Fingerprint(key.tree, key.tools, key.env), Step(key.argv, key.cwd, key.slot, false);
    KeyIsTheWork(f, s, fp, step);
    assert SameWork(f, s, fp, step);
    if ProvedBefore(history, fp, step) {
      var i, x :| 0 <= i < |history| && Proves(history[i], x, fp, step);
      assert Proves(history[i], x, f, s);
    }
    if ProvedBefore(history, f, s) {
      var i, x :| 0 <= i < |history| && Proves(history[i], x, f, s);
      assert Proves(history[i], x, fp, step);
    }
  }

  /** Marks are given only to keyed passes of a run that ended unchanged and clean. */
  lemma MarkedMeansClean(p: Plan, t: Outcome, e: Ending, r: Result)
    requires Keyed(p, t.s) && r in Conclude(p, t, e).completed && r.reusable
    ensures e.headUnchanged && e.clean && Reusable(r)
    ensures exists x :: x in t.s.completed && r == x.(reusable := true)
  {
    var s2 := ApplyEnding(p, ApplyIdentity(t.s.(status := LoopStatus(t.s, t.flow))), e);
    var f := Conclude(p, t, e);
    var i :| 0 <= i < |f.completed| && f.completed[i] == r;
    assert t.s.completed[i] in t.s.completed && KeyedEntry(p, t.s.completed[i]);
    assert !s2.completed[i].reusable;
    assert f == MarkReusable(s2, e) && f != s2;
    assert s2.completed == t.s.completed;
  }

  /** The file behind `--output`: each run reads the previous report and replaces it. */
  class ReportFile {
    var stored: seq<Result>           // `completed` of the last written report
    ghost var history: seq<RunRecord> // every run so far, oldest first

    /** Every entry the file would let a run reuse goes back to a real clean execution. */
    ghost predicate Valid()
      reads this
    {
      forall e :: e in stored && Accepts(e) ==>
        Vouched(history, e.proofKey.value) && e.argv == e.proofKey.value.argv && e.cwd == e.proofKey.value.cwd
    }

    constructor ()
      ensures Valid() && stored == [] && history == []
    {
      stored, history := [], [];
    }

    /** `_reusable_results`: accepted entries by key, the last one winning. */
    method ReusableResults(readable: bool) returns (found: map<ProofKey, Result>)
      ensures forall k :: k in found ==>
                            found[k] in stored && Accepts(found[k]) && found[k].proofKey == Some(k)
      ensures readable ==> forall e :: e in stored && Accepts(e) ==> e.proofKey.value in found
      ensures !readable ==> found == map[]
    {
      found := map[];
      if readable {
        for i := 0 to |stored|
          invariant forall k :: k in found ==>
                                  found[k] in stored && Accepts(found[k]) && found[k].proofKey == Some(k)
          invariant forall e :: e in stored[..i] && Accepts(e) ==> e.proofKey.value in found
        {
          if Accepts(stored[i]) {
            found := found[stored[i].proofKey.value := stored[i]];
          }
        }
      }
    }

    /**
     * One whole run. Whatever the environment answers, the run it leaves in the history is made of exactly those
     * answers, the report is what that run concludes, each reused result had an earlier real, clean execution of the
     * same command on the same tree with the same tools and environment, and the file stays fit for the next run.
     */
    method Run(inputs: Plan, identityComplete: bool, cleanupOnly: bool, browserReady: bool, blocked: bool,
               resume: bool, readable: bool, env: nat -> Observation, e: Ending) returns (report: State)
      requires Valid()
      modifies this
      ensures Valid() && stored == report.completed
      ensures |history| == |old(history)| + 1 && old(history) <= history
      ensures var run := history[|old(history)|];
              && run.plan == inputs.(reuse := run.plan.reuse)
              && RunOf(run, identityComplete, cleanupOnly, browserReady, blocked, env, e, report)
              && (forall k :: k in run.plan.reuse ==>
                  identityComplete && resume && readable && Vouched(old(history), k)
                  && Accepts(run.plan.reuse[k]) && run.plan.reuse[k].argv == k.argv && run.plan.reuse[k].cwd == k.cwd)
              && (identityComplete && resume && readable ==>
                    forall x :: x in old(stored) && Accepts(x) ==> x.proofKey.value in run.plan.reuse)
      ensures forall r :: r in report.completed && r.reused ==>
                            r.index < |inputs.steps|
                            && ProvedBefore(old(history), inputs.fp, inputs.steps[r.index])
    {
      var reuse: map<ProofKey, Result> := map[];
      if identityComplete && resume {
        reuse := ReusableResults(readable);
      }
      var p := inputs.(reuse := reuse);
      ghost var run;
      report, run := Execute(p, identityComplete, cleanupOnly, browserReady, blocked, env, e);
      ReuseIsVouched(p, run.end, e, history);
      MarkedIsVouched(history, run);
      history := history + [run];
      stored := report.completed;
    }
  }

  /** Every entry of the report that is not reused is an entry of the run's end, witnessed by one of its turns. */
  ghost predicate FreshWitnessed(run: RunRecord, completed: seq<Result>) {
    forall r :: r in completed && !r.reused ==>
      exists x :: x in run.end.s.completed && SameResult(r, x) && WitnessedIn(run.plan, run.turns, x)
  }

  /** What a passed report promises: one passing entry per planned step, each either reused or executed well in some
      turn of the run, and no turn answered with a failure. */
  ghost predicate SoundPass(run: RunRecord, report: State) {
    && report.pending == [] && report.skipped == []
    && multiset(Indices(report.completed)) == multiset(Range(|run.plan.steps|))
    && (forall i :: 0 <= i < |report.completed| ==> Pass(report.completed[i]))
    && (forall r :: r in report.completed && !r.reused ==> ExecutedIn(run, r.index))
    && (forall k :: 0 <= k < |run.turns| ==> !FailedAt(run.plan, run.turns[k]))
    && run.ending.headUnchanged && run.ending.clean && run.ending.elapsed <= run.plan.budget
  }

  ghost predicate ExecutedIn(run: RunRecord, index: nat) {
    exists k :: 0 <= k < |run.turns| && WellAt(run.plan, run.turns[k], index)
  }

  ghost predicate WellAt(p: Plan, turn: Turn, index: nat) {
    ExecutedWell(p, turn.before, turn.o, index)
  }

  /** The turn was answered with a failure, or by a step without an observer. */
  ghost predicate FailedAt(p: Plan, turn: Turn) {
    CanTurn(p, turn.before) && (Failing(p, turn.before, turn.o) || Unseen(p, turn.before, turn.o))
  }

  /** The record is of a run under exactly these answers, and this is its report: every planned step accounted for
      once, every entry that is not reused witnessed by a turn, and passed only with every step passing. */
  ghost predicate RunOf(run: RunRecord, identityComplete: bool, cleanupOnly: bool, browserReady: bool, blocked: bool,
                        env: nat -> Observation, e: Ending, report: State) {
    && Happened(run) && run.ending == e && Keyed(run.plan, run.end.s)
    && Prepared(run.plan, identityComplete, cleanupOnly, browserReady, blocked, run.start)
    && (forall k :: 0 <= k < |run.turns| ==> run.turns[k].o == env(k))
    && report == Conclude(run.plan, run.end, e) && SameResults(report.completed, run.end.s.completed)
    && Conserved(run.plan, report) && FreshWitnessed(run, report.completed)
    && (report.status == Passed ==> SoundPass(run, report))
    && (!identityComplete || PreparedLate(run) ==> NothingOffered(run, report))
    && ((!identityComplete && !cleanupOnly) || PreparedLate(run) ==> report.status != Passed)
    && MarkedExactly(run, report)
  }

  /** Of a run that was not cut short, entries are offered exactly if HEAD and tree did not change, the identity is
      complete and every entry has its key, and then exactly the passes. */
  ghost predicate MarkedExactly(run: RunRecord, report: State) {
    !run.end.flow.Raise? ==>
      forall r :: r in report.completed ==>
        (r.reusable <==>
          && run.ending.headUnchanged && run.ending.clean && run.end.s.identityComplete
          && (forall x :: x in report.completed ==> x.proofKey.Some?)
          && r.returncode == Some(0) && !r.error && !r.zeroTests)
  }

  lemma MarksAreExact(run: RunRecord)
    requires Happened(run) && Keyed(run.plan, run.end.s)
    ensures MarkedExactly(run, Conclude(run.plan, run.end, run.ending))
  {
    if !run.end.flow.Raise? {
      var s0 := run.end.s.(status := LoopStatus(run.end.s, run.end.flow));
      VerdictMarks(run.plan, s0, run.ending);
    }
  }

  lemma VerdictMarks(p: Plan, s0: State, e: Ending)
    requires Keyed(p, s0)
    ensures var f := MarkReusable(ApplyEnding(p, ApplyIdentity(s0), e), e);
            forall r :: r in f.completed ==>
              (r.reusable <==>
                && e.headUnchanged && e.clean && s0.identityComplete
                && (forall x :: x in f.completed ==> x.proofKey.Some?)
                && r.returncode == Some(0) && !r.error && !r.zeroTests)
  {
    var s2 := ApplyEnding(p, ApplyIdentity(s0), e);
    NothingMarkedYet(p, s0, s2);
    MarkExactly(s2, e);
  }

  lemma NothingMarkedYet(p: Plan, s: State, s2: State)
    requires Keyed(p, s) && SameKeysOrNone(s, s2)
    ensures forall r :: r in s2.completed ==> !r.reusable
  {
    forall r | r in s2.completed
      ensures !r.reusable
    {
      var i :| 0 <= i < |s2.completed| && s2.completed[i] == r;
      assert KeyedEntry(p, s.completed[i]);
    }
  }

  /** No entry has a mark it did not have. */
  ghost predicate SameKeysOrNone(s: State, t: State) {
    && |t.completed| == |s.completed|
    && forall i :: 0 <= i < |s.completed| ==> t.completed[i].reusable ==> s.completed[i].reusable
  }

  lemma MarkExactly(s: State, e: Ending)
    requires forall r :: r in s.completed ==> !r.reusable
    ensures var f := MarkReusable(s, e);
            forall r :: r in f.completed ==>
              (r.reusable <==>
                && e.headUnchanged && e.clean && s.identityComplete
                    && (forall x :: x in f.completed ==> x.proofKey.Some?)
                && r.returncode == Some(0) && !r.error && !r.zeroTests)
  {
    var f := MarkReusable(s, e);
    assert AllKeyed(f.completed) <==> AllKeyed(s.completed) by {
      forall i | 0 <= i < |s.completed|
        ensures f.completed[i].proofKey == s.completed[i].proofKey
      {
      }
      assert forall i :: 0 <= i < |s.completed| ==> f.completed[i] in f.completed && s.completed[i] in s.completed;
    }
  }

  /** Some turn of the run met a Studio preparation that appeared late. */
  ghost predicate PreparedLate(run: RunRecord) {
    exists k :: 0 <= k < |run.turns| && LateIn(run.plan, run.turns[k])
  }

  ghost predicate LateIn(p: Plan, turn: Turn) {
    && CanTurn(p, turn.before) && p.budget - turn.o.clock > 0.0
    && turn.o.needsPreparation
    && exists w :: w in Group(p, turn.before) && NotForeseen(p, w)
  }

  /** An `npx` step whose preparation was not part of the captured identity. */
  ghost predicate NotForeseen(p: Plan, w: Item)
    requires w.index < |p.steps|
  {
    var argv := p.steps[w.index].argv;
    argv != [] && argv[0] == "npx" && w.index !in p.preparationSteps
  }

  /** No entry may be reused, and unless an exception cut the run short none keeps a key. */
  ghost predicate NothingOffered(run: RunRecord, report: State) {
    forall r :: r in report.completed ==> !r.reusable && (!run.end.flow.Raise? ==> r.proofKey.None?)
  }

  predicate SameIdentity(a: State, b: State) {
    a.identityComplete == b.identityComplete && a.cleanupOnly == b.cleanupOnly
  }

  /** The identity is incomplete, and not only for its cleanup. */
  predicate Lost(s: State) {
    !s.identityComplete && !s.cleanupOnly
  }

  lemma FlushKeepsIdentity(p: Plan, s: State, raises: bool, codes: map<nat, int>)
    requires |s.keys| == |p.steps| && InRange(p, s.built)
    ensures SameIdentity(FlushStep(p, s, raises, codes).s, s)
  {
  }

  lemma LocatedKeepsIdentity(p: Plan, u: State, group: seq<Item>, parsed: Parsed, raises: bool, codes: map<nat, int>)
    requires parsed.Parsed? && |parsed.codes| <= |group| && |u.keys| == |p.steps| && InRange(p, u.built)
    ensures SameIdentity(AfterLocate(p, u, group, parsed, raises, codes).s, u)
  {
    FlushKeepsIdentity(p, u, raises, codes);
  }

  lemma BatchKeepsIdentity(p: Plan, u: State, group: seq<Item>, o: Observation, codes: map<nat, int>)
    requires |u.keys| == |p.steps| && InRange(p, u.built) && InRange(p, group)
    ensures SameIdentity(BatchStep(p, u, group, o, codes).s, u)
  {
    if Replied(group, o) {
      var parsed := Reading(o.envelope.value);
      var r := ChildrenUpTo(p, u, group, Side(p, |u.built|, group, o), parsed.codes, |parsed.codes|);
      LocatedKeepsIdentity(p, Locate(r.0, r.1, o.located), group, parsed, o.sideRaises, codes);
    }
  }

  lemma DispatchKeepsIdentity(p: Plan, u: State, group: seq<Item>, o: Observation, codes: map<nat, int>)
    requires |u.keys| == |p.steps| && InRange(p, u.built) && InRange(p, group) && group != []
    ensures SameIdentity(Dispatched(p, u, group, o, codes).s, u)
  {
    if !o.launchFails && !o.timedOut && IsBatch(p, group) {
      BatchKeepsIdentity(p, u, group, o, codes);
    } else if !o.launchFails && !o.timedOut {
      SingleKeepsIdentity(p, u, group[0].index, o);
    }
  }

  lemma SingleKeepsIdentity(p: Plan, u: State, index: nat, o: Observation)
    requires index < |p.steps| && |u.keys| == |p.steps|
    ensures SameIdentity(SingleStep(p, u, index, o).s, u)
  {
  }

  /** A turn never completes an identity, and a late preparation takes it away. */
  lemma TurnIdentity(p: Plan, turn: Turn, u: Outcome)
    requires TurnFits(p, turn, u)
    ensures !turn.before.identityComplete || LateIn(p, turn) ==> !u.s.identityComplete
    ensures Lost(turn.before) || LateIn(p, turn) ==> Lost(u.s)
    ensures turn.before.identityComplete && !LateIn(p, turn) ==> u.s.identityComplete
  {
    var s, o := turn.before, turn.o;
    var codes :| Fit(ReadyIn(p, s, o), o, codes) && u == TurnOf(p, s, o, codes);
    DispatchKeepsIdentity(p, Taken(p, s, o), Group(p, s), o, codes);
  }

  /** Identity, once lost, never returns. */
  lemma {:induction false} IdentityStaysLost(p: Plan, start: State, turns: seq<Turn>, t: Outcome, k: nat)
    requires Traced(p, start, turns, t) && k < |turns|
    requires !turns[k].before.identityComplete || LateIn(p, turns[k])
    ensures !t.s.identityComplete
    decreases |turns| - k
  {
    assert TurnFits(p, turns[k], After(turns, k, t));
    TurnIdentity(p, turns[k], After(turns, k, t));
    if k + 1 < |turns| {
      IdentityStaysLost(p, start, turns, t, k + 1);
    }
  }

  lemma {:induction false} LostForGood(p: Plan, start: State, turns: seq<Turn>, t: Outcome, k: nat)
    requires Traced(p, start, turns, t) && k < |turns| && (Lost(turns[k].before) || LateIn(p, turns[k]))
    ensures Lost(t.s)
    decreases |turns| - k
  {
    assert TurnFits(p, turns[k], After(turns, k, t));
    TurnIdentity(p, turns[k], After(turns, k, t));
    if k + 1 < |turns| {
      LostForGood(p, start, turns, t, k + 1);
    }
  }

  /** A run that met a late preparation, or began with an identity incomplete beyond its cleanup, is never passed. */
  lemma LostIsNeverPassed(run: RunRecord)
    requires Happened(run) && (Lost(run.start) || PreparedLate(run))
    ensures Conclude(run.plan, run.end, run.ending).status != Passed
  {
    if PreparedLate(run) {
      var k :| 0 <= k < |run.turns| && LateIn(run.plan, run.turns[k]);
      LostForGood(run.plan, run.start, run.turns, run.end, k);
    } else if run.turns != [] {
      LostForGood(run.plan, run.start, run.turns, run.end, 0);
    }
    HappenedEnds(run);
    PassedExactly(run.plan, run.end, run.ending);
  }

  lemma LostMeansNothingOffered(p: Plan, t: Outcome, e: Ending, r: Result)
    requires Keyed(p, t.s) && !t.s.identityComplete && r in Conclude(p, t, e).completed
    ensures !r.reusable && (!t.flow.Raise? ==> r.proofKey.None?)
  {
    if t.flow.Raise? {
      assert KeyedEntry(p, r);
    } else {
      var s1 := ApplyIdentity(t.s.(status := LoopStatus(t.s, t.flow)));
      var s2 := ApplyEnding(p, s1, e);
      assert MarkReusable(s2, e) == s2;
    }
  }

  /** A run without a complete identity, or that lost it on the way, offers nothing to later runs. */
  lemma IncompleteOffersNothing(run: RunRecord)
    requires Happened(run) && Keyed(run.plan, run.end.s)
    requires !run.start.identityComplete || PreparedLate(run)
    ensures NothingOffered(run, Conclude(run.plan, run.end, run.ending))
  {
    if PreparedLate(run) {
      var k :| 0 <= k < |run.turns| && LateIn(run.plan, run.turns[k]);
      IdentityStaysLost(run.plan, run.start, run.turns, run.end, k);
    } else if run.turns != [] {
      IdentityStaysLost(run.plan, run.start, run.turns, run.end, 0);
    }
    forall r | r in Conclude(run.plan, run.end, run.ending).completed
      ensures !r.reusable && (!run.end.flow.Raise? ==> r.proofKey.None?)
    {
      LostMeansNothingOffered(run.plan, run.end, run.ending, r);
    }
  }

  /** The run itself, apart from the file: prepare, loop, conclude. */
  method Execute(p: Plan, identityComplete: bool, cleanupOnly: bool, browserReady: bool, blocked: bool,
                 env: nat -> Observation, e: Ending) returns (report: State, ghost run: RunRecord)
    requires !identityComplete ==> p.reuse == map[]
    ensures run.plan == p && RunOf(run, identityComplete, cleanupOnly, browserReady, blocked, env, e, report)
  {
    var s := Prepare(p, identityComplete, cleanupOnly, browserReady, blocked);
    var t: Outcome;
    ghost var turns;
    t, turns := WorkLoop(p, s, env);
    run := RunRecord(p, s, turns, t, e);
    report := Conclude(p, t, e);
    if report.status == Passed {
      PassedRunIsSound(run);
    }
    ReportKeepsResults(p, t, e);
    ReportConserved(p, t, e);
    FreshIsWitnessed(run);
    if !identityComplete || PreparedLate(run) {
      IncompleteOffersNothing(run);
    }
    if (!identityComplete && !cleanupOnly) || PreparedLate(run) {
      LostIsNeverPassed(run);
    }
    MarksAreExact(run);
  }

  /** The written report accounts for every planned step once, like the loop's. */
  lemma ReportConserved(p: Plan, t: Outcome, e: Ending)
    requires Conserved(p, t.s)
    ensures Conserved(p, Conclude(p, t, e))
  {
    ReportKeepsResults(p, t, e);
    assert Indices(Conclude(p, t, e).completed) == Indices(t.s.completed);
  }

  /** Every entry of the report that is not reused was witnessed by a turn of the run. */
  lemma FreshIsWitnessed(run: RunRecord)
    requires Happened(run)
    ensures FreshWitnessed(run, Conclude(run.plan, run.end, run.ending).completed)
  {
    ReportKeepsResults(run.plan, run.end, run.ending);
    var f := Conclude(run.plan, run.end, run.ending);
    forall r | r in f.completed && !r.reused
      ensures exists x :: x in run.end.s.completed && SameResult(r, x) && WitnessedIn(run.plan, run.turns, x)
    {
      var i :| 0 <= i < |f.completed| && f.completed[i] == r;
      var x := run.end.s.completed[i];
      assert SameResult(r, x) && x in run.end.s.completed;
      EntriesWitnessed(run.plan, run.start, run.turns, run.end, x);
    }
  }

  lemma ReuseIsVouched(p: Plan, t: Outcome, e: Ending, history: seq<RunRecord>)
    requires Keyed(p, t.s) && forall k :: k in p.reuse ==> Vouched(history, k)
    ensures forall r :: r in Conclude(p, t, e).completed && r.reused ==>
                          r.index < |p.steps| && ProvedBefore(history, p.fp, p.steps[r.index])
  {
    ReportKeepsResults(p, t, e);
    var f := Conclude(p, t, e);
    forall r | r in f.completed && r.reused
      ensures r.index < |p.steps| && ProvedBefore(history, p.fp, p.steps[r.index])
    {
      var i :| 0 <= i < |f.completed| && f.completed[i] == r;
      assert SameResult(r, t.s.completed[i]);
      assert t.s.completed[i] in t.s.completed && KeyedEntry(p, t.s.completed[i]);
      VouchedKey(history, p.fp, p.steps[r.index]);
    }
  }

  lemma WitnessedIsExecuted(run: RunRecord, x: Result)
    requires WitnessedIn(run.plan, run.turns, x) && x.index < |run.plan.steps|
    requires x.returncode == Some(0) && !x.error && !x.zeroTests
    ensures ExecutedIn(run, x.index)
  {
    var k :| 0 <= k < |run.turns| && WitnessedAt(run.plan, run.turns[k], x);
    PassIsExecutedWell(run.plan, run.turns[k].before, run.turns[k].o, x);
    assert WellAt(run.plan, run.turns[k], x.index);
  }

  /** Every entry a later run may reuse goes back to a real execution: this run's own, or one behind a reused one. */
  lemma MarkedIsVouched(history: seq<RunRecord>, run: RunRecord)
    requires Happened(run) && Keyed(run.plan, run.end.s) && (forall k :: k in run.plan.reuse ==> Vouched(history, k))
    ensures forall r :: r in Conclude(run.plan, run.end, run.ending).completed && Accepts(r) ==>
                          Vouched(history + [run], r.proofKey.value)
                          && r.argv == r.proofKey.value.argv && r.cwd == r.proofKey.value.cwd
  {
    forall r | r in Conclude(run.plan, run.end, run.ending).completed && Accepts(r)
      ensures Vouched(history + [run], r.proofKey.value)
      ensures r.argv == r.proofKey.value.argv && r.cwd == r.proofKey.value.cwd
    {
      MarkedMeansClean(run.plan, run.end, run.ending, r);
      var x :| x in run.end.s.completed && r == x.(reusable := true);
      assert KeyedEntry(run.plan, x);
      var step := run.plan.steps[x.index];
      VouchedKey(history, run.plan.fp, step);
      VouchedKey(history + [run], run.plan.fp, step);
      if x.reused {
        ProvedGrows(history, run, run.plan.fp, step);
      } else {
        EntriesWitnessed(run.plan, run.start, run.turns, run.end, x);
        WitnessedIsExecuted(run, x);
        assert Proves((history + [run])[|history|], x, run.plan.fp, step);
      }
    }
  }

  // ---------------------------------------------------------------- a failure in any turn

  lemma LaterTurnMeansContinue(p: Plan, start: State, turns: seq<Turn>, t: Outcome, k: nat)
    requires Traced(p, start, turns, t) && k < |turns| && t.flow.Continue?
    ensures After(turns, k, t).flow.Continue?
  {
  }

  /** The end of a run is one `PassedExactly` speaks of. */
  lemma HappenedEnds(run: RunRecord)
    requires Happened(run)
    ensures LoopResult(run.plan, run.end)
  {
    if run.turns != [] {
      var k := |run.turns| - 1;
      assert TurnFits(run.plan, run.turns[k], After(run.turns, k, run.end));
      TurnedKept(run.plan, run.turns[k], run.end);
    }
    if run.end.flow.Continue? && run.end.s.status != Blocked {
      EmptyDrains(run.plan, run.end.s);
    }
  }

  lemma {:induction false} FreshStays(p: Plan, start: State, turns: seq<Turn>, t: Outcome, k: nat, r: Result)
    requires Traced(p, start, turns, t) && k < |turns| && r in After(turns, k, t).s.completed && !r.reused
    ensures r in t.s.completed
    decreases |turns| - k
  {
    if k + 1 < |turns| {
      var turn, u := turns[k + 1], After(turns, k + 1, t);
      assert TurnFits(p, turn, u);
      TurnStays(p, turn.before, turn.o, u);
      FreshStays(p, start, turns, t, k + 1, r);
    }
  }

  /** Whatever follows, a run is never passed once any of its turns was answered with a failure: a failing code, no test
      run, bad evidence, an unacceptable reply, a failing child or executable, a timeout, or no observer. */
  lemma FailureIsNeverPassed(run: RunRecord, k: nat)
    requires Happened(run) && k < |run.turns| && FailedAt(run.plan, run.turns[k])
    ensures Conclude(run.plan, run.end, run.ending).status != Passed
  {
    if Conclude(run.plan, run.end, run.ending).status == Passed {
      HappenedEnds(run);
      PassedExactly(run.plan, run.end, run.ending);
      var turn, u := run.turns[k], After(run.turns, k, run.end);
      LaterTurnMeansContinue(run.plan, run.start, run.turns, run.end, k);
      assert TurnFits(run.plan, turn, u);
      if Failing(run.plan, turn.before, turn.o) {
        FailureShows(run.plan, turn.before, turn.o, u);
        RedStays(run.plan, run.start, run.turns, run.end, k);
      } else {
        TurnStays(run.plan, turn.before, turn.o, u);
        var r :| r in u.s.completed && !r.reused && r.unobserved;
        FreshStays(run.plan, run.start, run.turns, run.end, k, r);
      }
    }
  }

  /** The report of a passed run: every entry that was not reused goes back to a turn that executed its step well. */
  lemma PassedIsExecuted(run: RunRecord, r: Result)
    requires Happened(run) && Conclude(run.plan, run.end, run.ending).status == Passed
    requires r in Conclude(run.plan, run.end, run.ending).completed && !r.reused
    ensures ExecutedIn(run, r.index)
  {
    HappenedEnds(run);
    PassedIsSound(run.plan, run.end, run.ending);
    FreshIsWitnessed(run);
    var x :| x in run.end.s.completed && SameResult(r, x) && WitnessedIn(run.plan, run.turns, x);
    assert KeyedEntry(run.plan, x) && Pass(x);
    WitnessedIsExecuted(run, x);
  }

  /** All of it together. */
  lemma PassedRunIsSound(run: RunRecord)
    requires Happened(run) && Conclude(run.plan, run.end, run.ending).status == Passed
    ensures SoundPass(run, Conclude(run.plan, run.end, run.ending))
  {
    HappenedEnds(run);
    PassedIsSound(run.plan, run.end, run.ending);
    forall r | r in Conclude(run.plan, run.end, run.ending).completed && !r.reused
      ensures ExecutedIn(run, r.index)
    {
      PassedIsExecuted(run, r);
    }
    forall k | 0 <= k < |run.turns|
      ensures !FailedAt(run.plan, run.turns[k])
    {
      if FailedAt(run.plan, run.turns[k]) {
        FailureIsNeverPassed(run, k);
      }
    }
  }

  /** So passed implies that every executable of every step run side by side, in whatever turn, spawned and exited 0. */
  lemma SideBySideAllGood(run: RunRecord, k: nat, i: nat)
    requires Happened(run) && Conclude(run.plan, run.end, run.ending).status == Passed
    requires k < |run.turns| && CanTurn(run.plan, run.turns[k].before)
    requires i < |ReadyIn(run.plan, run.turns[k].before, run.turns[k].o)|
    ensures AllGood(run.turns[k].o, ReadyIn(run.plan, run.turns[k].before, run.turns[k].o)[i].index)
  {
    var ready := ReadyIn(run.plan, run.turns[k].before, run.turns[k].o);
    if !AllGood(run.turns[k].o, ready[i].index) {
      assert ready[i] in ready;
      FailureIsNeverPassed(run, k);
    }
  }

  // ---------------------------------------------------------------- a benign environment

  /** The reply to a batch of `n` commands that all exited 0. */
  function AllDone(n: nat): (e: Envelope) {
    Envelope(seq(n, i requires 0 <= i < n => Child(i, 0, 1.0)), [], Exhausted)
  }

  /** An acceptable reply in which every child exited 0 and the batch is exhausted or cut at a lease boundary. */
  ghost predicate CleanReply(e: Envelope, n: nat) {
    && Acceptable(e, n, 0) && (e.stop.Exhausted? || e.stop.LeaseBoundary?)
    && forall k :: 0 <= k < |e.completed| ==> e.completed[k].exitCode == 0
  }

  /** Answers without a failure, in time: the child exits 0 with its tests run and observed, a batch is answered by a
      clean reply, and every executable of the queued and waiting steps exits 0. */
  ghost predicate Benign(p: Plan, s: State, o: Observation)
    requires CanTurn(p, s)
  {
    && o.clock < p.budget && o.elapsed <= p.budget && !o.launchFails && !o.timedOut && !o.sideRaises
    && o.returncode == 0 && !o.needsPreparation && !o.unobservedMark && !o.noTestsRan && !o.ranZero
    && o.vitest.Evidence? && o.vitest.v.passed > 0 && o.vitest.v.failed == 0 && o.vitest.v.errors == 0
    && o.vitest.v.success
    && o.envelope.Some? && CleanReply(o.envelope.value, |Group(p, s)|)
    && forall w :: w in s.work || w in s.built ==> AllGood(o, w.index)
  }

  ghost predicate Observed(rs: seq<Result>) {
    forall r :: r in rs ==> !r.unobserved
  }

  /** Nothing but the books has changed. */
  ghost predicate Smooth(s: State, t: Outcome) {
    && t.flow.Continue? && t.s.red == s.red && t.s.returned == s.returned && t.s.skipped == s.skipped
    && t.s.identityComplete == s.identityComplete && (Observed(s.completed) ==> Observed(t.s.completed))
  }

  lemma SingleSmooth(p: Plan, s: State, index: nat, o: Observation)
    requires index < |p.steps| && |s.keys| == |p.steps|
    requires o.returncode == 0 && !o.unobservedMark && !o.noTestsRan && !o.ranZero && o.elapsed <= p.budget
    requires o.vitest.Evidence? && o.vitest.v.passed > 0 && o.vitest.v.failed == 0 && o.vitest.v.errors == 0
    requires o.vitest.v.success
    ensures Smooth(s, SingleStep(p, s, index, o))
  {
  }

  lemma DoneReads(n: nat)
    ensures CleanReply(AllDone(n), n)
  {
  }

  lemma FlushSmooth(p: Plan, s: State, codes: map<nat, int>)
    requires |s.keys| == |p.steps| && InRange(p, s.built)
    requires forall i :: 0 <= i < |s.built| ==> SideCode(codes, s.built[i].index) == 0
    ensures Smooth(s, FlushStep(p, s, false, codes))
  {
    var t := FlushStep(p, s, false, codes);
    assert !AnyRed(SideCodes(s.built, codes));
    forall r | r in t.s.completed && Observed(s.completed)
      ensures !r.unobserved
    {
      var side, idle := SideCodes(s.built, codes), s.(built := []);
      ChildrenReport(p, idle, s.built, {}, side, |side|, r);
    }
  }

  lemma ChildrenSmooth(p: Plan, s: State, group: seq<Item>, side: set<nat>, codes: seq<int>)
    requires |codes| <= |group| && InRange(p, group) && |s.keys| == |p.steps|
    ensures Smooth(s, Outcome(ChildrenUpTo(p, s, group, side, codes, |codes|).0, Continue))
    ensures forall w :: w in ChildrenUpTo(p, s, group, side, codes, |codes|).1 ==> w in group
  {
    var r := ChildrenUpTo(p, s, group, side, codes, |codes|);
    forall x | x in r.0.completed && Observed(s.completed)
      ensures !x.unobserved
    {
      ChildrenReport(p, s, group, side, codes, |codes|, x);
    }
    var added := ChildrenSorted(p, s, group, side, codes, |codes|);
  }

  lemma BatchSmooth(p: Plan, s: State, group: seq<Item>, o: Observation, codes: map<nat, int>)
    requires |s.keys| == |p.steps| && InRange(p, s.built) && InRange(p, group)
    requires o.envelope.Some? && CleanReply(o.envelope.value, |group|) && o.returncode == 0 && !o.sideRaises
    requires Fit(BatchReady(p, s, group, o), o, codes)
    requires forall w :: w in group || w in s.built ==> AllGood(o, w.index)
    ensures Smooth(s, BatchStep(p, s, group, o, codes))
  {
    var parsed, side := Reading(o.envelope.value), Side(p, |s.built|, group, o);
    ChildrenSmooth(p, s, group, side, parsed.codes);
    var r := ChildrenUpTo(p, s, group, side, parsed.codes, |parsed.codes|);
    var u := Locate(r.0, r.1, o.located);
    if FlushDue(u, parsed) {
      forall i | 0 <= i < |u.built|
        ensures SideCode(codes, u.built[i].index) == 0
      {
        assert u.built[i] in u.built;
        assert u.built[i] in s.built || u.built[i] in r.1;
      }
      FlushSmooth(p, u, codes);
    }
  }

  lemma BenignTurn(p: Plan, s: State, o: Observation, codes: map<nat, int>)
    requires CanTurn(p, s) && Benign(p, s, o) && Fit(ReadyIn(p, s, o), o, codes)
    ensures Smooth(s, TurnOf(p, s, o, codes))
  {
    var group, u := Group(p, s), Taken(p, s, o);
    assert forall w :: w in group ==> w in s.work;
    if IsBatch(p, group) {
      BatchSmooth(p, u, group, o, codes);
    } else {
      SingleSmooth(p, u, group[0].index, o);
    }
  }

  ghost predicate BenignAt(p: Plan, turn: Turn) {
    CanTurn(p, turn.before) && Benign(p, turn.before, turn.o)
  }

  ghost predicate AllBenign(p: Plan, turns: seq<Turn>) {
    forall k :: 0 <= k < |turns| ==> BenignAt(p, turns[k])
  }

  lemma {:induction false} BenignRun(p: Plan, start: State, turns: seq<Turn>, t: Outcome, k: nat)
    requires Traced(p, start, turns, t) && AllBenign(p, turns) && k <= |turns|
    ensures Smooth(start, if k < |turns| then Outcome(turns[k].before, Continue) else t)
  {
    if k > 0 {
      BenignRun(p, start, turns, t, k - 1);
      var turn, u := turns[k - 1], After(turns, k - 1, t);
      assert TurnFits(p, turn, u) && BenignAt(p, turn);
      var codes :| Fit(ReadyIn(p, turn.before, turn.o), turn.o, codes) && u == TurnOf(p, turn.before, turn.o, codes);
      BenignTurn(p, turn.before, turn.o, codes);
    }
  }

  /** A run that is never answered with a failure, reuses its identity and skips nothing, concludes passed. */
  lemma CleanRepliesPass(p: Plan, start: State, turns: seq<Turn>, t: Outcome, e: Ending)
    requires Traced(p, start, turns, t) && Ended(t) && AllBenign(p, turns)
    requires Valid(p, start) && start.status == Incomplete && !start.red && start.skipped == [] && start.returned == []
    requires start.identityComplete && Observed(start.completed)
    requires e.headUnchanged && e.clean && e.elapsed <= p.budget
    ensures Conclude(p, t, e).status == Passed
  {
    BenignRun(p, start, turns, t, |turns|);
    if turns != [] {
      assert TurnFits(p, turns[|turns| - 1], After(turns, |turns| - 1, t));
      TurnedKept(p, turns[|turns| - 1], After(turns, |turns| - 1, t));
    }
    EmptyDrains(p, t.s);
    assert multiset(t.s.pending) == multiset{};
    PassedExactly(p, t, e);
  }

  /** An answer of that kind, for any state. */
  lemma BenignAnswer(p: Plan, s: State) returns (o: Observation)
    requires CanTurn(p, s) && p.budget > 0.0
    ensures Benign(p, s, o)
  {
    DoneReads(|Group(p, s)|);
    var indices := set w | w in s.work + s.built :: w.index;
    var fates := map i | i in indices :: [ParallelRun.Exits(0, 0)];
    o := Observation(0.0, false, None, {}, false, false, 0, 0.0, Some(AllDone(|Group(p, s)|)), {}, false, fates, [],
                     false, false, false, false, Evidence(Vitest(1, 0, 0, true)));
  }

  lemma SomeCodes(ready: seq<Item>, o: Observation) returns (codes: map<nat, int>)
    ensures Fit(ready, o, codes)
  {
    codes := map i | i in o.fates && AllGood(o, i) :: 0;
    forall index: nat | index !in o.fates
      ensures !AllGood(o, index)
    {
      assert Executables(o, index)[0] == ParallelRun.SpawnFails;
    }
  }

  lemma BenignStep(p: Plan, s: State) returns (o: Observation, u: State)
    requires Valid(p, s) && s.work != [] && s.status == Incomplete && p.budget > 0.0
    ensures TurnFits(p, Turn(s, o), Outcome(u, Continue)) && BenignAt(p, Turn(s, o))
    ensures Valid(p, u) && u.status == Incomplete && Measure(u) < Measure(s)
  {
    o := BenignAnswer(p, s);
    var t := TurnKeeps(p, s, o, map[]);
    var codes := SomeCodes(ReadyIn(p, s, o), o);
    t := TurnKeeps(p, s, o, codes);
    BenignTurn(p, s, o, codes);
    u := t.s;
    assert t == Outcome(u, Continue);
  }

  /** One more turn at the beginning. */
  lemma TracePrepends(p: Plan, s: State, o: Observation, u: State, rest: seq<Turn>, t: Outcome)
    requires TurnFits(p, Turn(s, o), Outcome(u, Continue)) && Traced(p, u, rest, t)
    ensures Traced(p, s, [Turn(s, o)] + rest, t)
  {
    var all := [Turn(s, o)] + rest;
    forall k | 0 <= k < |all|
      ensures TurnFits(p, all[k], After(all, k, t))
    {
      if k > 0 {
        assert TurnFits(p, rest[k - 1], After(rest, k - 1, t));
      }
    }
  }

  lemma BenignPrepends(p: Plan, turn: Turn, rest: seq<Turn>)
    requires BenignAt(p, turn) && AllBenign(p, rest)
    ensures AllBenign(p, [turn] + rest)
  {
  }

  /** From every startable state there is a run of such answers, so the premise of `CleanRepliesPass` can be met. */
  lemma {:induction false} SomeRunPasses(p: Plan, s: State) returns (turns: seq<Turn>, t: Outcome)
    requires Valid(p, s) && s.status == Incomplete && p.budget > 0.0
    ensures Traced(p, s, turns, t) && Ended(t) && AllBenign(p, turns)
    decreases Measure(s)
  {
    if s.work == [] {
      turns, t := [], Outcome(s, Continue);
    } else {
      var o, u := BenignStep(p, s);
      var rest;
      rest, t := SomeRunPasses(p, u);
      TracePrepends(p, s, o, u, rest, t);
      BenignPrepends(p, Turn(s, o), rest);
      turns := [Turn(s, o)] + rest;
    }
  }
}
