/**
 * What a cohort can get done: one process at a time behind the lock, every cell to its verdict when nothing fails, and
 * the stop file with an incomplete or evaluated receipt when something does.
 */
module FrozenProgress {
  import opened Lists
  import opened FrozenAttempts

  // ---------------------------------------------------------------- one at a time

  /** At most one process, and the lock file while there is one. */
  ghost predicate Locked(s: State) {
    && (forall p, q | p in s.procs && q in s.procs :: p == q)
    && (s.procs != map[] ==> s.lock)
  }

  lemma StepKeepsLocked(plan: seq<Id>, s: State, a: Action)
    requires Locked(s) && !a.DeleteLock?
    ensures Locked(Step(plan, s, a))
  {
    if !a.Start? && a.p in s.procs {
      assert s.procs - {a.p} == map[];
    }
  }

  /** As long as nobody deletes the lock file by hand, at most one process is live, whatever crashes. */
  lemma {:induction false} OneAtATime(plan: seq<Id>, actions: seq<Action>)
    requires DeleteLock !in actions
    ensures Locked(Run(plan, actions))
  {
    if actions != [] {
      var init, a := actions[..|actions| - 1], actions[|actions| - 1];
      assert a in actions && forall x :: x in init ==> x in actions;
      OneAtATime(plan, init);
      StepKeepsLocked(plan, Run(plan, init), a);
    }
  }

  /** Without that proviso two can be. */
  lemma DeletedLockLetsTwoIn(plan: seq<Id>) returns (actions: seq<Action>)
    ensures var s := Run(plan, actions); 0 in s.procs && 1 in s.procs && s.procs[0] == s.procs[1] == Entered
  {
    actions := [Start(0), DeleteLock, Start(1)];
    assert actions[..2] == [Start(0), DeleteLock] && actions[..2][..1] == [Start(0)] && actions[..2][..1][..0] == [];
    assert RunFrom(plan, INIT, []) == INIT;
    assert RunFrom(plan, INIT, [Start(0)]) == Step(plan, INIT, Start(0));
    assert RunFrom(plan, INIT, [Start(0), DeleteLock]) == Step(plan, Step(plan, INIT, Start(0)), DeleteLock);
  }

  // ---------------------------------------------------------------- forward only

  /** How far a process has come. */
  function Stage(pc: Pc): (n: nat) {
    match pc
    case Entered => 0
    case Checking(_, _) => 1
    case Clear(_) => 2
    case Admitted(_) => 3
    case Holding(_) => 4
    case Running(_) => 5
    case Halting(_) => 6
    case Judging(_) => 7
    case Failing(_) => 8
    case Stopping(_) => 9
    case Settled(_, _) => 10
    case Leaving => 11
  }

  predicate Forward(pc: Pc, next: Pc) {
    && (next == pc || Stage(next) > Stage(pc) || (pc.Checking? && next == Checking(pc.at, pc.upTo + 1)))
    && (!pc.Entered? && !pc.Leaving? && !next.Leaving? ==> next.at == pc.at)
  }

  lemma ApproachGoesForward(plan: seq<Id>, s: State, pc: Pc, a: Action)
    requires !Owns(pc) && !pc.Admitted?
    ensures Forward(pc, Approach(plan, s, pc, a))
  {
  }

  lemma PerformGoesForward(plan: seq<Id>, s: State, p: Pid, a: Action)
    requires p in s.procs
    ensures p in Perform(plan, s, p, a).procs && Forward(s.procs[p], Perform(plan, s, p, a).procs[p])
  {
  }

  /** Nothing is tried twice: a process stays, goes on to a later stage, or checks the next earlier receipt,
      and from its
      choice on it is about one cell only. A process that has to leave does nothing else. */
  lemma TurnGoesForward(plan: seq<Id>, s: State, p: Pid, a: Action)
    requires p in s.procs && p in Turn(plan, s, p, a).procs
    ensures Forward(s.procs[p], Turn(plan, s, p, a).procs[p])
  {
    if !(a.Trouble? || a.Abort? || a.Release? || a.Crash?) {
      if s.procs[p].Admitted? || Owns(s.procs[p]) {
        PerformGoesForward(plan, s, p, a);
      } else {
        ApproachGoesForward(plan, s, s.procs[p], a);
      }
    }
  }

  /** A caught error goes to the handler from wherever the reservation is held, and a crash takes the process away and
      leaves every file as it is, the lock included. */
  lemma ErrorsAndCrashes(plan: seq<Id>, s: State, p: Pid)
    requires p in s.procs
    ensures Step(plan, s, Crash(p)) == s.(procs := s.procs - {p})
    ensures var pc := s.procs[p];
            pc.Holding? || pc.Running? || pc.Halting? || pc.Judging? ==>
              Step(plan, s, Trouble(p)) == s.(procs := s.procs[p := Failing(pc.at)])
  {
  }

  // ---------------------------------------------------------------- runs, composed

  ghost predicate Leads(plan: seq<Id>, s: State, t: State) {
    exists actions :: RunFrom(plan, s, actions) == t
  }

  lemma LeadsNowhere(plan: seq<Id>, s: State)
    ensures Leads(plan, s, s)
  {
    assert RunFrom(plan, s, []) == s;
  }

  lemma LeadsOn(plan: seq<Id>, s: State, t: State, a: Action)
    requires Leads(plan, s, t)
    ensures Leads(plan, s, Step(plan, t, a))
  {
    var actions :| RunFrom(plan, s, actions) == t;
    assert (actions + [a])[..|actions|] == actions;
    assert RunFrom(plan, s, actions + [a]) == Step(plan, t, a);
  }

  /** The files of `s` with one live process, behind the lock. */
  function With(s: State, pc: Pc): (t: State) {
    s.(procs := map[0 := pc], lock := true)
  }

  /** Nobody is there, and nothing has stopped the provider. */
  predicate Free(s: State) {
    s.procs == map[] && !s.lock && !s.stop
  }

  /** The one process takes a step of its approach. */
  lemma Approaches(plan: seq<Id>, s0: State, s: State, pc: Pc, a: Action)
    requires Leads(plan, s0, With(s, pc)) && !Owns(pc) && !pc.Admitted?
    requires a.Choose? || a.Check? || a.CheckStop?
    requires a.p == 0
    ensures Leads(plan, s0, With(s, Approach(plan, With(s, pc), pc, a)))
  {
    LeadsOn(plan, s0, With(s, pc), a);
    assert Step(plan, With(s, pc), a) == With(s, Approach(plan, With(s, pc), pc, a));
  }

  /** The one process performs a step behind the reservation. */
  lemma Performs(plan: seq<Id>, s0: State, s: State, pc: Pc, a: Action, t: State, next: Pc)
    requires Leads(plan, s0, With(s, pc)) && (Owns(pc) || pc.Admitted?)
    requires !a.DeleteLock? && !a.Start? && a.p == 0
    requires !a.Trouble? && !a.Abort? && !a.Release? && !a.Crash?
    requires Perform(plan, With(s, pc), 0, a) == With(t, next)
    ensures Leads(plan, s0, With(t, next))
  {
    LeadsOn(plan, s0, With(s, pc), a);
  }

  lemma Enters(plan: seq<Id>, s0: State, s: State)
    requires Leads(plan, s0, s) && s.procs == map[] && !s.lock
    ensures Leads(plan, s0, With(s, Entered))
  {
    LeadsOn(plan, s0, s, Start(0));
    assert Step(plan, s, Start(0)) == With(s, Entered);
  }

  lemma Releases(plan: seq<Id>, s0: State, s: State)
    requires Leads(plan, s0, With(s, Leaving))
    ensures Leads(plan, s0, s.(procs := map[], lock := false))
  {
    LeadsOn(plan, s0, With(s, Leaving), Release(0));
    assert map[0 := Leaving] - {0} == map[];
  }

  // ---------------------------------------------------------------- to the reservation

  lemma SelectsOne(plan: seq<Id>, at: nat)
    requires Distinct(plan) && at < |plan|
    ensures Selected(plan, plan[at]) == [at]
  {
    var ks := Selected(plan, plan[at]);
    RangeCounts(|plan|);
    FilterCounts(Range(|plan|), (k: nat) => k < |plan| && plan[k] == plan[at]);
    forall k: nat
      ensures multiset(ks)[k] == multiset([at])[k]
    {
    }
    assert multiset(ks) == multiset([at]);
    assert |ks| == |multiset(ks)| == 1;
    assert ks[0] in multiset(ks);
  }

  lemma {:induction false} Checks(plan: seq<Id>, s0: State, s: State, at: nat, k: nat)
    requires at < |plan| && k <= at && forall j :: 0 <= j < at ==> plan[j] in s.receipts
    requires Leads(plan, s0, With(s, Checking(at, k)))
    ensures Leads(plan, s0, With(s, Clear(at)))
    decreases at - k
  {
    Approaches(plan, s0, s, Checking(at, k), Check(0));
    if k < at {
      Checks(plan, s0, s, at, k + 1);
    }
  }

  lemma Admits(plan: seq<Id>, s0: State, s: State, at: nat)
    requires Distinct(plan) && at < |plan| && Leads(plan, s0, s) && Free(s)
    requires forall j :: 0 <= j < at ==> plan[j] in s.receipts
    ensures Leads(plan, s0, With(s, Admitted(at)))
  {
    Enters(plan, s0, s);
    SelectsOne(plan, at);
    Approaches(plan, s0, s, Entered, Choose(0, plan[at]));
    Checks(plan, s0, s, at, 0);
    Approaches(plan, s0, s, Clear(at), CheckStop(0));
  }

  lemma Reserves(plan: seq<Id>, s0: State, s: State, at: nat) returns (t: State)
    requires at < |plan| && plan[at] !in s.reserved && Leads(plan, s0, With(s, Admitted(at)))
    ensures t == s.(reserved := s.reserved + {plan[at]}) && Leads(plan, s0, With(t, Holding(at)))
  {
    t := s.(reserved := s.reserved + {plan[at]});
    MoveWith(s, Admitted(at), Holding(at));
    Performs(plan, s0, s, Admitted(at), Reserve(0), t, Holding(at));
  }

  /** With every earlier receipt there, a process gets as far as launching the agent for its cell. */
  lemma Launches(plan: seq<Id>, s0: State, s: State, at: nat) returns (t: State)
    requires Distinct(plan) && at < |plan| && Leads(plan, s0, s) && Free(s)
    requires plan[at] !in s.reserved && forall j :: 0 <= j < at ==> plan[j] in s.receipts
    ensures t == s.(reserved := s.reserved + {plan[at]}, launches := s.launches + [at])
    ensures Leads(plan, s0, With(t, Running(at)))
  {
    Admits(plan, s0, s, at);
    var u := Reserves(plan, s0, s, at);
    t := u.(launches := u.launches + [at]);
    MoveWith(u, Holding(at), Running(at));
    Performs(plan, s0, u, Holding(at), Launch(0), t, Running(at));
  }

  lemma MoveWith(s: State, pc: Pc, next: Pc)
    ensures Move(With(s, pc), 0, next) == With(s, next)
  {
    assert map[0 := pc][0 := next] == map[0 := next];
  }

  // ---------------------------------------------------------------- and to the receipt

  lemma Publishes(plan: seq<Id>, s0: State, s: State, at: nat, result: Outcome)
    requires at < |plan| && Leads(plan, s0, With(s, Settled(at, result))) && plan[at] !in s.receipts
    ensures Leads(plan, s0, s.(procs := map[], lock := false, receipts := s.receipts[plan[at] := result]))
  {
    var t := s.(receipts := s.receipts[plan[at] := result]);
    MoveWith(s, Settled(at, result), Leaving);
    Performs(plan, s0, s, Settled(at, result), PublishReceipt(0), t, Leaving);
    Releases(plan, s0, t);
  }

  function VerdictOf(accepted: bool): (o: Outcome) {
    if accepted then Passed else Failed
  }

  lemma Ends(plan: seq<Id>, s0: State, s: State, at: nat, providerFailed: bool)
    requires Leads(plan, s0, With(s, Running(at)))
    ensures Leads(plan, s0, With(s, if providerFailed then Halting(at) else Judging(at)))
  {
    var next := if providerFailed then Halting(at) else Judging(at);
    MoveWith(s, Running(at), next);
    Performs(plan, s0, s, Running(at), AgentEnded(0, providerFailed), s, next);
  }

  /** From the evaluation to the receipt. */
  lemma Judges(plan: seq<Id>, s0: State, s: State, at: nat, accepted: bool)
    requires at < |plan| && Leads(plan, s0, With(s, Judging(at))) && plan[at] !in s.receipts
    ensures Leads(plan, s0, s.(procs := map[], lock := false,
                               receipts := s.receipts[plan[at] := VerdictOf(accepted)]))
  {
    MoveWith(s, Judging(at), Settled(at, VerdictOf(accepted)));
    Performs(plan, s0, s, Judging(at), Evaluate(0, accepted), s, Settled(at, VerdictOf(accepted)));
    Publishes(plan, s0, s, at, VerdictOf(accepted));
  }

  /** A cell whose predecessors are done can be run to the receipt its evaluation calls for; nothing else changes. */
  lemma CellCompletes(plan: seq<Id>, s0: State, s: State, at: nat, accepted: bool) returns (t: State)
    requires Distinct(plan) && at < |plan| && Leads(plan, s0, s) && Free(s)
    requires plan[at] !in s.reserved && plan[at] !in s.receipts && forall j :: 0 <= j < at ==> plan[j] in s.receipts
    ensures t == s.(reserved := s.reserved + {plan[at]}, launches := s.launches + [at],
                    receipts := s.receipts[plan[at] := VerdictOf(accepted)])
    ensures Leads(plan, s0, t)
  {
    var u := Launches(plan, s0, s, at);
    Ends(plan, s0, u, at, false);
    Judges(plan, s0, u, at, accepted);
    t := u.(receipts := s.receipts[plan[at] := VerdictOf(accepted)]);
  }

  lemma Stops(plan: seq<Id>, s0: State, s: State, pc: Pc, next: Pc)
    requires !s.stop && Leads(plan, s0, With(s, pc))
    requires (pc.Halting? && next == Judging(pc.at)) || (pc.Stopping? && next == Settled(pc.at, Incomplete))
    ensures Leads(plan, s0, With(s.(stop := true), next))
  {
    MoveWith(s, pc, next);
    Performs(plan, s0, s, pc, PublishStop(0), s.(stop := true), next);
  }

  /** After a provider or cleanup failure the cell can still be evaluated, but the stop file is there. */
  lemma FailureStops(plan: seq<Id>, s0: State, s: State, at: nat, accepted: bool) returns (t: State)
    requires Distinct(plan) && at < |plan| && Leads(plan, s0, s) && Free(s)
    requires plan[at] !in s.reserved && plan[at] !in s.receipts && forall j :: 0 <= j < at ==> plan[j] in s.receipts
    ensures Leads(plan, s0, t) && t.stop && t.receipts == s.receipts[plan[at] := VerdictOf(accepted)]
  {
    var u := Launches(plan, s0, s, at);
    Ends(plan, s0, u, at, true);
    Stops(plan, s0, u, Halting(at), Judging(at));
    var v := u.(stop := true);
    Judges(plan, s0, v, at, accepted);
    t := v.(procs := map[], lock := false, receipts := v.receipts[plan[at] := VerdictOf(accepted)]);
  }

  /** After a caught error the cell can be recorded as incomplete, with the stop file. */
  lemma TroubleStops(plan: seq<Id>, s0: State, s: State, at: nat) returns (t: State)
    requires Distinct(plan) && at < |plan| && Leads(plan, s0, s) && Free(s)
    requires plan[at] !in s.reserved && plan[at] !in s.receipts && forall j :: 0 <= j < at ==> plan[j] in s.receipts
    ensures Leads(plan, s0, t) && t.stop && t.receipts == s.receipts[plan[at] := Incomplete]
  {
    var u := Launches(plan, s0, s, at);
    LeadsOn(plan, s0, With(u, Running(at)), Trouble(0));
    MoveWith(u, Running(at), Failing(at));
    Handles(plan, s0, u, at);
    Stops(plan, s0, u, Stopping(at), Settled(at, Incomplete));
    var v := u.(stop := true);
    Publishes(plan, s0, v, at, Incomplete);
    t := v.(procs := map[], lock := false, receipts := v.receipts[plan[at] := Incomplete]);
  }

  /** A process that dies while its agent runs leaves a reservation that nobody owns. */
  lemma CrashSticks(plan: seq<Id>, s0: State, s: State, at: nat) returns (t: State)
    requires Distinct(plan) && at < |plan| && Leads(plan, s0, s) && Free(s)
    requires plan[at] !in s.reserved && plan[at] !in s.receipts && forall j :: 0 <= j < at ==> plan[j] in s.receipts
    ensures Leads(plan, s0, t) && Stuck(plan, t, at) && t.launches == s.launches + [at]
  {
    var u := Launches(plan, s0, s, at);
    LeadsOn(plan, s0, With(u, Running(at)), Crash(0));
    t := Step(plan, With(u, Running(at)), Crash(0));
  }

  lemma Handles(plan: seq<Id>, s0: State, s: State, at: nat)
    requires !s.stop && Leads(plan, s0, With(s, Failing(at)))
    ensures Leads(plan, s0, With(s, Stopping(at)))
  {
    MoveWith(s, Failing(at), Stopping(at));
    Performs(plan, s0, s, Failing(at), CheckStop(0), s, Stopping(at));
  }

  // ---------------------------------------------------------------- the whole plan

  /** The first `k` cells are done as the evaluations say, in order, and nobody is there. */
  ghost predicate DoneUpTo(plan: seq<Id>, verdicts: seq<bool>, k: nat, s: State)
    requires k <= |plan| == |verdicts|
  {
    && Free(s) && s.launches == Range(k)
    && (forall id :: id in s.reserved <==> id in plan[..k])
    && (forall id :: id in s.receipts <==> id in plan[..k])
    && (forall i :: 0 <= i < k ==> s.receipts[plan[i]] == VerdictOf(verdicts[i]))
  }

  lemma OneMoreDone(plan: seq<Id>, verdicts: seq<bool>, k: nat, s: State, t: State)
    requires Distinct(plan) && k < |plan| == |verdicts| && DoneUpTo(plan, verdicts, k, s)
    requires t == s.(reserved := s.reserved + {plan[k]}, launches := s.launches + [k],
                     receipts := s.receipts[plan[k] := VerdictOf(verdicts[k])])
    ensures DoneUpTo(plan, verdicts, k + 1, t)
  {
    assert plan[..k + 1] == plan[..k] + [plan[k]];
    assert Range(k) + [k] == Range(k + 1);
    forall i | 0 <= i < k
      ensures plan[i] != plan[k]
    {
    }
  }

  /** Whatever the evaluations say, some run of the protocol carries every cell of a plan to its verdict, in the frozen
      order and one at a time. */
  lemma {:induction false} EveryCellCompletes(plan: seq<Id>, verdicts: seq<bool>, k: nat) returns (s: State)
    requires Distinct(plan) && k <= |plan| == |verdicts|
    ensures Leads(plan, INIT, s) && DoneUpTo(plan, verdicts, k, s)
  {
    if k == 0 {
      LeadsNowhere(plan, INIT);
      s := INIT;
    } else {
      var before := EveryCellCompletes(plan, verdicts, k - 1);
      assert forall j :: 0 <= j < k - 1 ==> plan[j] in plan[..k - 1];
      NotYet(plan, k - 1);
      s := CellCompletes(plan, INIT, before, k - 1, verdicts[k - 1]);
      OneMoreDone(plan, verdicts, k - 1, before, s);
    }
  }

  lemma NotYet(plan: seq<Id>, k: nat)
    requires Distinct(plan) && k < |plan|
    ensures plan[k] !in plan[..k]
  {
  }
}
