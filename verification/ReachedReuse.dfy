/**
 * What a passed run is good for: the next run over the same tree, tools and environment executes nothing at all.
 */
module ReachedReuse {
  import opened Lists
  import opened BatchReply
  import opened ReachedPlan
  import opened ReachedRun
  import opened ReachedSession

  // ---------------------------------------------------------------- every entry keeps its key

  /** While the identity is complete every step and every entry has its key. */
  ghost predicate Whole(s: State) {
    s.identityComplete ==> (forall i :: 0 <= i < |s.keys| ==> s.keys[i].Some?) && AllKeyed(s.completed)
  }

  /** Only plain cargo commands are built for later. */
  ghost predicate BuiltBatchable(p: Plan, s: State) {
    forall w :: w in s.built ==> w.index < |p.steps| && Batchable(p.steps[w.index])
  }

  ghost predicate AllBatchable(p: Plan, group: seq<Item>) {
    forall w :: w in group ==> w.index < |p.steps| && Batchable(p.steps[w.index])
  }

  /** From `s` to `t` no key is lost, every new entry has its own, and only batchable builds are added. */
  ghost predicate Grown(p: Plan, s: State, t: State) {
    && t.keys == s.keys && t.identityComplete == s.identityComplete
    && (forall r :: r in t.completed ==> r in s.completed || (r.index < |s.keys| && r.proofKey == s.keys[r.index]))
    && (forall w :: w in t.built ==> w in s.built || (w.index < |p.steps| && Batchable(p.steps[w.index])))
  }

  lemma GrownTransitive(p: Plan, s: State, t: State, u: State)
    requires Grown(p, s, t) && Grown(p, t, u)
    ensures Grown(p, s, u)
  {
  }

  lemma GrownKeeps(p: Plan, s: State, t: State)
    requires Grown(p, s, t)
    ensures (Whole(s) ==> Whole(t)) && (BuiltBatchable(p, s) ==> BuiltBatchable(p, t))
  {
  }

  lemma SingleGrows(p: Plan, s: State, index: nat, o: Observation)
    requires index < |p.steps| && |s.keys| == |p.steps|
    ensures Grown(p, s, SingleStep(p, s, index, o).s) && Grown(p, s, TimedOut(p, s, index).s)
  {
  }

  lemma ChildrenGrow(p: Plan, s: State, group: seq<Item>, side: set<nat>, codes: seq<int>)
    requires |codes| <= |group| && InRange(p, group) && |s.keys| == |p.steps|
    ensures var r := ChildrenUpTo(p, s, group, side, codes, |codes|);
            Grown(p, s, r.0) && forall w :: w in r.1 ==> w in group
  {
    var r := ChildrenUpTo(p, s, group, side, codes, |codes|);
    forall x | x in r.0.completed
      ensures x in s.completed || (x.index < |s.keys| && x.proofKey == s.keys[x.index])
    {
      ChildrenReport(p, s, group, side, codes, |codes|, x);
    }
    var added := ChildrenSorted(p, s, group, side, codes, |codes|);
  }

  lemma FlushGrows(p: Plan, s: State, raises: bool, codes: map<nat, int>)
    requires |s.keys| == |p.steps| && InRange(p, s.built)
    ensures Grown(p, s, FlushStep(p, s, raises, codes).s)
  {
    var side := SideCodes(s.built, codes);
    ChildrenGrow(p, s.(built := []), s.built, {}, side);
  }

  lemma LocatedGrows(p: Plan, u: State, group: seq<Item>, parsed: Parsed, raises: bool, codes: map<nat, int>)
    requires parsed.Parsed? && |parsed.codes| <= |group| && |u.keys| == |p.steps| && InRange(p, u.built)
    ensures Grown(p, u, AfterLocate(p, u, group, parsed, raises, codes).s)
  {
    FlushGrows(p, u, raises, codes);
  }

  lemma LocateGrows(p: Plan, s: State, deferred: seq<Item>, located: set<nat>)
    requires AllBatchable(p, deferred)
    ensures Grown(p, s, Locate(s, deferred, located))
  {
  }

  lemma BatchGrows(p: Plan, s: State, group: seq<Item>, o: Observation, codes: map<nat, int>)
    requires |s.keys| == |p.steps| && InRange(p, s.built) && AllBatchable(p, group)
    ensures Grown(p, s, BatchStep(p, s, group, o, codes).s)
  {
    if Replied(group, o) {
      var parsed, side := Reading(o.envelope.value), Side(p, |s.built|, group, o);
      ChildrenGrow(p, s, group, side, parsed.codes);
      var r := ChildrenUpTo(p, s, group, side, parsed.codes, |parsed.codes|);
      var u := Locate(r.0, r.1, o.located);
      LocateGrows(p, r.0, r.1, o.located);
      LocatedGrows(p, u, group, parsed, o.sideRaises, codes);
      GrownTransitive(p, s, r.0, u);
      GrownTransitive(p, s, u, AfterLocate(p, u, group, parsed, o.sideRaises, codes).s);
    }
  }

  lemma DispatchGrows(p: Plan, u: State, group: seq<Item>, o: Observation, codes: map<nat, int>)
    requires |u.keys| == |p.steps| && InRange(p, u.built) && InRange(p, group) && group != []
    requires IsBatch(p, group) ==> AllBatchable(p, group)
    ensures Grown(p, u, Dispatched(p, u, group, o, codes).s)
  {
    if !o.launchFails {
      if o.timedOut || !IsBatch(p, group) {
        SingleGrows(p, u, group[0].index, o);
      } else {
        BatchGrows(p, u, group, o, codes);
      }
    }
  }

  lemma TakenGrows(p: Plan, s: State, o: Observation)
    requires CanTurn(p, s)
    ensures (Whole(s) ==> Whole(Taken(p, s, o))) && (BuiltBatchable(p, s) ==> BuiltBatchable(p, Taken(p, s, o)))
  {
  }

  ghost predicate Steady(p: Plan, s: State) {
    Whole(s) && BuiltBatchable(p, s)
  }

  lemma TurnGrows(p: Plan, turn: Turn, u: Outcome)
    requires TurnFits(p, turn, u) && Steady(p, turn.before)
    ensures Steady(p, u.s)
  {
    var s, o := turn.before, turn.o;
    var codes :| Fit(ReadyIn(p, s, o), o, codes) && u == TurnOf(p, s, o, codes);
    GroupKind(p, s);
    TakenGrows(p, s, o);
    DispatchGrows(p, Taken(p, s, o), Group(p, s), o, codes);
    GrownKeeps(p, Taken(p, s, o), Dispatched(p, Taken(p, s, o), Group(p, s), o, codes).s);
  }

  /** Turn `k` of a trace begins where the one before it ended. */
  lemma TurnBegins(p: Plan, start: State, turns: seq<Turn>, t: Outcome, k: nat)
    requires Traced(p, start, turns, t) && k < |turns|
    ensures turns[k].before == if k == 0 then start else After(turns, k - 1, t).s
  {
  }

  lemma TurnOfTraceGrows(p: Plan, start: State, turns: seq<Turn>, t: Outcome, k: nat)
    requires Traced(p, start, turns, t) && k < |turns| && Steady(p, turns[k].before)
    ensures Steady(p, After(turns, k, t).s)
  {
    assert TurnFits(p, turns[k], After(turns, k, t));
    TurnGrows(p, turns[k], After(turns, k, t));
  }

  lemma {:induction false} TraceGrown(p: Plan, start: State, turns: seq<Turn>, t: Outcome, k: nat)
    requires Traced(p, start, turns, t) && Steady(p, start) && k < |turns|
    ensures Steady(p, turns[k].before) && Steady(p, After(turns, k, t).s)
  {
    TurnBegins(p, start, turns, t, k);
    if k > 0 {
      TraceGrown(p, start, turns, t, k - 1);
    }
    TurnOfTraceGrows(p, start, turns, t, k);
  }

  lemma TraceEndGrown(p: Plan, start: State, turns: seq<Turn>, t: Outcome)
    requires Traced(p, start, turns, t) && Steady(p, start)
    ensures Steady(p, t.s)
  {
    if turns != [] {
      TraceGrown(p, start, turns, t, |turns| - 1);
    }
  }

  // ---------------------------------------------------------------- every vitest pass has evidence

  /** A pass of a vitest command has evidence that some tests passed and none failed. */
  ghost predicate Evidenced(r: Result) {
    VitestStep(r.argv, r.cwd) && r.returncode == Some(0) && !r.error ==>
      r.vitest.Some? && r.vitest.value.passed > 0 && r.vitest.value.failed == 0 && r.vitest.value.errors == 0
  }

  lemma NotVitest(step: Step)
    requires Batchable(step)
    ensures !VitestStep(step.argv, step.cwd)
  {
    assert step.argv[..2][0] == step.argv[0] == "cargo";
  }

  lemma ReadyIsBatchable(p: Plan, s: State, o: Observation, index: nat)
    requires CanTurn(p, s) && BuiltWaits(p, s) && BuiltBatchable(p, s) && index in Queue(ReadyIn(p, s, o))
    ensures index < |p.steps| && Batchable(p.steps[index])
  {
    var u, group := Taken(p, s, o), Group(p, s);
    GroupKind(p, s);
    var parsed, side := Reading(o.envelope.value), Side(p, |u.built|, group, o);
    ChildrenGrow(p, u, group, side, parsed.codes);
    BuiltWaitForTheBatch(p, u, group, o);
    var i :| 0 <= i < |Queue(ReadyIn(p, s, o))| && Queue(ReadyIn(p, s, o))[i] == index;
    assert ReadyIn(p, s, o)[i] in ReadyIn(p, s, o);
  }

  /** Whatever a turn witnesses has its evidence. */
  lemma WitnessedEvidenced(p: Plan, turn: Turn, r: Result)
    requires WitnessedAt(p, turn, r) && BuiltWaits(p, turn.before) && BuiltBatchable(p, turn.before)
    requires KeyedEntry(p, r)
    ensures Evidenced(r)
  {
    var s, o := turn.before, turn.o;
    var group, step := Group(p, s), p.steps[r.index];
    GroupKind(p, s);
    if IsBatch(p, group) && exists l :: ChildReported(group, o, l, r) {
      var l: nat :| ChildReported(group, o, l, r);
      assert group[l] in group;
      NotVitest(step);
    } else if r.index in Queue(ReadyIn(p, s, o)) {
      ReadyIsBatchable(p, s, o, r.index);
      NotVitest(step);
    }
  }

  /** What a run may reuse is what a report offers. */
  ghost predicate ReuseFits(p: Plan) {
    forall k :: k in p.reuse ==>
      Accepts(p.reuse[k]) && p.reuse[k].argv == k.argv && p.reuse[k].cwd == k.cwd
  }

  lemma EndEvidenced(run: RunRecord, x: Result)
    requires Happened(run) && Keyed(run.plan, run.end.s) && ReuseFits(run.plan)
    requires Whole(run.start) && BuiltBatchable(run.plan, run.start) && x in run.end.s.completed
    ensures Evidenced(x)
  {
    var p := run.plan;
    EntriesWitnessed(p, run.start, run.turns, run.end, x);
    assert KeyedEntry(p, x);
    if x in run.start.completed {
      var k := KeyOf(p.fp, p.steps[x.index]);
      assert x == ReusedEntry(p, x.index) && k in p.reuse;
    } else {
      var k :| 0 <= k < |run.turns| && WitnessedAt(p, run.turns[k], x);
      TraceGrown(p, run.start, run.turns, run.end, k);
      assert TurnFits(p, run.turns[k], After(run.turns, k, run.end));
      WitnessedEvidenced(p, run.turns[k], x);
    }
  }

  // ---------------------------------------------------------------- a passed run offers every step

  /** The report offers every step of the plan under its key. */
  ghost predicate OffersAll(p: Plan, completed: seq<Result>) {
    forall i: nat :: i < |p.steps| ==> Offered(p, completed, i)
  }

  ghost predicate Offered(p: Plan, completed: seq<Result>, i: nat)
    requires i < |p.steps|
  {
    exists x :: Offers(p, completed, i, x)
  }

  ghost predicate Offers(p: Plan, completed: seq<Result>, i: nat, x: Result)
    requires i < |p.steps|
  {
    x in completed && Accepts(x) && x.proofKey == Some(KeyOf(p.fp, p.steps[i]))
  }

  lemma TurnKeepsComplete(p: Plan, start: State, turns: seq<Turn>, t: Outcome, k: nat)
    requires Traced(p, start, turns, t) && k < |turns| && turns[k].before.identityComplete && !LateIn(p, turns[k])
    ensures After(turns, k, t).s.identityComplete
  {
    assert TurnFits(p, turns[k], After(turns, k, t));
    TurnIdentity(p, turns[k], After(turns, k, t));
  }

  lemma {:induction false} IdentityStays(p: Plan, start: State, turns: seq<Turn>, t: Outcome, k: nat)
    requires Traced(p, start, turns, t) && k < |turns| && start.identityComplete
    requires forall i :: 0 <= i < |turns| ==> !LateIn(p, turns[i])
    ensures After(turns, k, t).s.identityComplete
  {
    TurnBegins(p, start, turns, t, k);
    if k > 0 {
      IdentityStays(p, start, turns, t, k - 1);
    }
    TurnKeepsComplete(p, start, turns, t, k);
  }

  lemma PlannedHasEntry(p: Plan, completed: seq<Result>, i: nat) returns (x: Result)
    requires multiset(Indices(completed)) == multiset(Range(|p.steps|)) && i < |p.steps|
    ensures x in completed && x.index == i
  {
    RangeMembers(|p.steps|);
    assert i in Range(|p.steps|);
    assert i in multiset(Indices(completed));
    var j :| 0 <= j < |completed| && Indices(completed)[j] == i;
    x := completed[j];
  }

  /** A run that began with a complete identity, met no late preparation and passed offers every step of its plan. */
  lemma PassedOffersAll(run: RunRecord)
    requires Happened(run) && Keyed(run.plan, run.end.s) && ReuseFits(run.plan)
    requires run.start.identityComplete && Whole(run.start) && run.start.built == [] && !PreparedLate(run)
    requires Conclude(run.plan, run.end, run.ending).status == Passed
    ensures OffersAll(run.plan, Conclude(run.plan, run.end, run.ending).completed)
  {
    var p, f := run.plan, Conclude(run.plan, run.end, run.ending);
    HappenedEnds(run);
    PassedIsSound(p, run.end, run.ending);
    MarksAreExact(run);
    if run.turns != [] {
      IdentityStays(p, run.start, run.turns, run.end, |run.turns| - 1);
    }
    TraceEndGrown(p, run.start, run.turns, run.end);
    AllStayKeyed(run);
    forall i: nat | i < |p.steps|
      ensures Offered(p, f.completed, i)
    {
      var x := PlannedHasEntry(p, f.completed, i);
      EntryOffers(run, x);
      assert Offers(p, f.completed, i, x);
    }
  }

  lemma AllStayKeyed(run: RunRecord)
    requires run.end.s.identityComplete && AllKeyed(run.end.s.completed) && !run.end.flow.Raise?
    ensures AllKeyed(Conclude(run.plan, run.end, run.ending).completed)
  {
    var s1 := ApplyIdentity(run.end.s.(status := LoopStatus(run.end.s, run.end.flow)));
    var s2 := ApplyEnding(run.plan, s1, run.ending);
    assert s2.completed == run.end.s.completed;
    forall i | 0 <= i < |s2.completed|
      ensures MarkReusable(s2, run.ending).completed[i].proofKey.Some?
    {
    }
  }

  /** One passing, marked entry of such a run. */
  lemma EntryOffers(run: RunRecord, x: Result)
    requires Happened(run) && Keyed(run.plan, run.end.s) && ReuseFits(run.plan)
    requires Whole(run.start) && BuiltBatchable(run.plan, run.start)
    requires x in Conclude(run.plan, run.end, run.ending).completed
    requires x.reusable && x.proofKey.Some? && Pass(x)
    ensures Accepts(x) && x.index < |run.plan.steps|
    ensures x.proofKey == Some(KeyOf(run.plan.fp, run.plan.steps[x.index]))
  {
    MarkedMeansClean(run.plan, run.end, run.ending, x);
    var y :| y in run.end.s.completed && x == y.(reusable := true);
    assert KeyedEntry(run.plan, y);
    EndEvidenced(run, y);
  }

  // ---------------------------------------------------------------- and then nothing is executed

  ghost predicate AllVouchable(p: Plan) {
    forall i: nat :: i < |p.steps| ==> Vouchable(p, i)
  }

  lemma FirstMember(s: seq<nat>)
    ensures s == [] || s[0] in s
  {
  }

  lemma NoWork(p: Plan, s: State)
    requires Conserved(p, s) && s.pending == []
    ensures InitialQueue(p, s.pending) == []
  {
    WorkIsPending(p, s);
    var work := InitialQueue(p, s.pending);
    assert |multiset(Queue(work))| == |work|;
  }

  lemma FirstTurnHasWork(p: Plan, start: State, turns: seq<Turn>, t: Outcome)
    requires Traced(p, start, turns, t) && turns != []
    ensures start.work != []
  {
    assert TurnFits(p, turns[0], After(turns, 0, t));
  }

  lemma NothingPending(p: Plan, s: State)
    requires Conserved(p, s) && AllVouchable(p) && forall i: nat :: i in s.pending ==> !Vouchable(p, i)
    ensures s.pending == []
  {
    forall i: nat
      ensures i !in s.pending
    {
      if i in s.pending {
        PendingIsPlanned(p, s, i);
      }
    }
    FirstMember(s.pending);
  }

  /** With every step vouched for, nothing skipped and the preflight passed, a run executes nothing, reuses every step,
      and is passed on an unchanged, clean tree in time. */
  lemma VouchedRunsNothing(run: RunRecord, cleanupOnly: bool, env: nat -> Observation, e: Ending, report: State)
    requires RunOf(run, true, cleanupOnly, true, false, env, e, report) && AllVouchable(run.plan)
    ensures run.turns == [] && forall r :: r in report.completed ==> r.reused
    ensures e.headUnchanged && e.clean && e.elapsed <= run.plan.budget ==> report.status == Passed
  {
    var p, s := run.plan, run.start;
    NothingPending(p, s);
    NoWork(p, s);
    FirstMember(s.skipped);
    if run.turns != [] {
      FirstTurnHasWork(p, s, run.turns, run.end);
    }
    forall r | r in report.completed
      ensures r.reused
    {
      var i :| 0 <= i < |report.completed| && report.completed[i] == r;
      assert SameResult(r, run.end.s.completed[i]) && run.end.s.completed[i] in s.completed;
    }
    HappenedEnds(run);
    PassedExactly(p, run.end, e);
  }

  /** The first run's report, read by a second run over the same plan. */
  lemma SecondRunsNothing(one: RunRecord, first: State, two: RunRecord, cleanupOnly: bool, env: nat -> Observation,
                          e: Ending, second: State)
    requires Happened(one) && Keyed(one.plan, one.end.s) && ReuseFits(one.plan)
    requires one.start.identityComplete && Whole(one.start) && one.start.built == [] && !PreparedLate(one)
    requires first == Conclude(one.plan, one.end, one.ending) && first.status == Passed
    requires two.plan == one.plan.(reuse := two.plan.reuse)
    requires forall x :: x in first.completed && Accepts(x) ==> x.proofKey.value in two.plan.reuse
    requires RunOf(two, true, cleanupOnly, true, false, env, e, second)
    ensures two.turns == [] && forall r :: r in second.completed ==> r.reused
    ensures e.headUnchanged && e.clean && e.elapsed <= two.plan.budget ==> second.status == Passed
  {
    PassedOffersAll(one);
    forall i: nat | i < |two.plan.steps|
      ensures Vouchable(two.plan, i)
    {
      assert Offered(one.plan, first.completed, i);
      var x :| Offers(one.plan, first.completed, i, x);
    }
    VouchedRunsNothing(two, cleanupOnly, env, e, second);
  }

  lemma StartIsWhole(p: Plan, cleanupOnly: bool, browserReady: bool, s: State)
    requires Prepared(p, true, cleanupOnly, browserReady, false, s)
    ensures s.identityComplete && Whole(s) && s.built == []
  {
  }

  /** Two runs in a row on one report file, with the same plan. If the first began with a complete identity, met no late
      preparation and passed, the second executes nothing and reuses every step. */
  method RunTwice(file: ReportFile, inputs: Plan, cleanups: (bool, bool), browserReady: bool, resume: bool,
                  readable: bool, envs: (nat -> Observation, nat -> Observation), ends: (Ending, Ending))
    returns (first: State, second: State, ghost one: RunRecord, ghost two: RunRecord)
    requires file.Valid()
    modifies file
    ensures file.Valid()
    ensures one.plan == inputs.(reuse := one.plan.reuse)
            && RunOf(one, true, cleanups.0, browserReady, false, envs.0, ends.0, first)
    ensures two.plan == inputs.(reuse := two.plan.reuse)
            && RunOf(two, true, cleanups.1, true, false, envs.1, ends.1, second)
    ensures first.status == Passed && !PreparedLate(one) ==>
              && two.turns == [] && (forall r :: r in second.completed ==> r.reused)
              && (ends.1.headUnchanged && ends.1.clean && ends.1.elapsed <= inputs.budget ==> second.status == Passed)
  {
    first := file.Run(inputs, true, cleanups.0, browserReady, false, resume, readable, envs.0, ends.0);
    one := file.history[|file.history| - 1];
    second := file.Run(inputs, true, cleanups.1, true, false, true, true, envs.1, ends.1);
    two := file.history[|file.history| - 1];
    if first.status == Passed && !PreparedLate(one) {
      StartIsWhole(one.plan, cleanups.0, browserReady, one.start);
      SecondRunsNothing(one, first, two, cleanups.1, envs.1, ends.1, second);
    }
  }
}
