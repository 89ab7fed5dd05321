/**
 * Attempts run in a frozen order (`methodology.py`): a cohort lock, one reservation file and one receipt file per
 * planned cell, and a provider-stop file. Any number of processes may interleave, fail or be killed between any
 * two file operations, and an operator may delete a lock at any moment.
 */
module FrozenAttempts {
  import opened Lists

  type Pid = nat
  type Id = nat

  datatype Outcome = Passed | Failed | Incomplete

  /** Where a process stands; `at` is the position of its cell in the frozen order. */
  datatype Pc =
    | Entered                            // created the lock file
    | Checking(at: nat, upTo: nat)       // saw receipts for the first `upTo` cells
    | Clear(at: nat)                     // saw every earlier receipt
    | Admitted(at: nat)                  // saw no provider-stop file
    | Holding(at: nat)                   // created the reservation
    | Running(at: nat)                   // launched the agent
    | Halting(at: nat)                   // the agent ended with a provider or cleanup failure
    | Judging(at: nat)                   // evaluates what the agent left
    | Failing(at: nat)                   // in the error handler
    | Stopping(at: nat)                  // in the error handler, saw no provider-stop file
    | Settled(at: nat, result: Outcome)  // about to publish the receipt
    | Leaving                            // about to delete the lock

  /** The files, the live processes, and the positions launched so far. */
  datatype State = State(
    procs: map<Pid, Pc>, lock: bool, reserved: set<Id>, receipts: map<Id, Outcome>, stop: bool, launches: seq<nat>)

  datatype Action =
    | Start(p: Pid)
    | Choose(p: Pid, id: Id)
    | Check(p: Pid)
    | CheckStop(p: Pid)
    | Reserve(p: Pid)
    | Launch(p: Pid)
    | AgentEnded(p: Pid, providerFailed: bool)
    | PublishStop(p: Pid)
    | Evaluate(p: Pid, accepted: bool)
    | Trouble(p: Pid)
    | PublishReceipt(p: Pid)
    | Abort(p: Pid)
    | Release(p: Pid)
    | Crash(p: Pid)
    | DeleteLock

  /** The positions at which the order names an attempt. */
  function Selected(plan: seq<Id>, id: Id): (ks: seq<nat>) {
    Filter(Range(|plan|), (k: nat) => k < |plan| && plan[k] == id)
  }

  function Move(s: State, p: Pid, pc: Pc): (t: State) {
    s.(procs := s.procs[p := pc])
  }

  /** Before the reservation: select the attempt, look for earlier receipts and for the stop file. */
  function Approach(plan: seq<Id>, s: State, pc: Pc, a: Action): (next: Pc) {
    match (a, pc)
    case (Choose(_, id), Entered) =>
      var ks := Selected(plan, id);
      if |ks| != 1 then Leaving else Checking(ks[0], 0)
    case (Check(_), Checking(at, k)) =>
      if k >= at || k >= |plan| then Clear(at) else if plan[k] in s.receipts then Checking(at, k + 1) else Leaving
    case (CheckStop(_), Clear(at)) => if s.stop then Leaving else Admitted(at)
    case _ => pc
  }

  /** The reservation and everything after it. */
  function Perform(plan: seq<Id>, s: State, p: Pid, a: Action): (t: State)
    requires p in s.procs
  {
    match (a, s.procs[p])
    case (Reserve(_), Admitted(at)) =>
      if at >= |plan| || plan[at] in s.reserved then Move(s, p, Leaving)
      else Move(s, p, Holding(at)).(reserved := s.reserved + {plan[at]})
    case (Launch(_), Holding(at)) => Move(s, p, Running(at)).(launches := s.launches + [at])
    case (AgentEnded(_, providerFailed), Running(at)) => Move(s, p, if providerFailed then Halting(at) else Judging(at))
    case (PublishStop(_), Halting(at)) =>
      if s.stop then Move(s, p, Failing(at)) else Move(s, p, Judging(at)).(stop := true)
    case (Evaluate(_, accepted), Judging(at)) => Move(s, p, Settled(at, if accepted then Passed else Failed))
    case (CheckStop(_), Failing(at)) => Move(s, p, if s.stop then Settled(at, Incomplete) else Stopping(at))
    case (PublishStop(_), Stopping(at)) =>
      if s.stop then Move(s, p, Leaving) else Move(s, p, Settled(at, Incomplete)).(stop := true)
    case (PublishReceipt(_), Settled(at, result)) =>
      if at >= |plan| || plan[at] in s.receipts then Move(s, p, Leaving)
      else Move(s, p, Leaving).(receipts := s.receipts[plan[at] := result])
    case _ => s
  }

  /** Inside the `try`: a caught error goes to the handler. */
  predicate Caught(pc: Pc) {
    pc.Holding? || pc.Running? || pc.Halting? || pc.Judging?
  }

  /** Ways out that any process may be forced to take. */
  function Interrupt(s: State, p: Pid, a: Action): (t: State)
    requires p in s.procs
  {
    match a
    case Trouble(_) => if Caught(s.procs[p]) then Move(s, p, Failing(s.procs[p].at)) else s
    case Abort(_) => Move(s, p, Leaving)
    case Release(_) => if s.procs[p].Leaving? then s.(procs := s.procs - {p}, lock := false) else s
    case Crash(_) => s.(procs := s.procs - {p})
    case _ => s
  }

  /** Has reserved its cell and not yet published the receipt. */
  predicate Owns(pc: Pc) {
    pc.Holding? || pc.Running? || pc.Halting? || pc.Judging? || pc.Failing? || pc.Stopping? || pc.Settled?
  }

  /** One turn of a live process. */
  function Turn(plan: seq<Id>, s: State, p: Pid, a: Action): (t: State)
    requires p in s.procs
  {
    if a.Trouble? || a.Abort? || a.Release? || a.Crash? then Interrupt(s, p, a)
    else if s.procs[p].Admitted? || Owns(s.procs[p]) then Perform(plan, s, p, a)
    else Move(s, p, Approach(plan, s, s.procs[p], a))
  }

  /** One step of the system; an action whose moment has not come changes nothing. */
  function Step(plan: seq<Id>, s: State, a: Action): (t: State) {
    if a.DeleteLock? then s.(lock := false)
    else if a.Start? then
      if a.p in s.procs || s.lock then s else Move(s, a.p, Entered).(lock := true)
    else if a.p in s.procs then Turn(plan, s, a.p, a)
    else s
  }

  const INIT := State(map[], false, {}, map[], false, [])

  function RunFrom(plan: seq<Id>, s: State, actions: seq<Action>): (t: State) {
    if actions == [] then s
    else Step(plan, RunFrom(plan, s, actions[..|actions| - 1]), actions[|actions| - 1])
  }

  function Run(plan: seq<Id>, actions: seq<Action>): (s: State) {
    RunFrom(plan, INIT, actions)
  }

  // ---------------------------------------------------------------- invariants

  /** The order names this position's attempt only here. */
  predicate Sole(plan: seq<Id>, at: nat) {
    at < |plan| && forall k | 0 <= k < |plan| :: plan[k] == plan[at] ==> k == at
  }

  predicate EarlierDone(plan: seq<Id>, receipts: map<Id, Outcome>, at: nat) {
    forall k | 0 <= k < |plan| && k < at :: plan[k] in receipts
  }

  /** What one process knows. */
  predicate Knows(plan: seq<Id>, s: State, pc: Pc) {
    match pc
    case Entered => true
    case Leaving => true
    case Checking(at, k) => Sole(plan, at) && k <= at && EarlierDone(plan, s.receipts, k)
    case Clear(at) => Sole(plan, at) && EarlierDone(plan, s.receipts, at)
    case Admitted(at) =>
      Sole(plan, at) && EarlierDone(plan, s.receipts, at) && (plan[at] !in s.reserved ==> !s.stop)
    case _ =>
      && Sole(plan, pc.at) && plan[pc.at] in s.reserved && plan[pc.at] !in s.receipts
      && (pc.Holding? ==> !s.stop && pc.at !in s.launches)
  }

  ghost predicate AllKnow(plan: seq<Id>, s: State) {
    forall p | p in s.procs :: Knows(plan, s, s.procs[p])
  }

  /** At most one process holds a reservation without its receipt. */
  ghost predicate OneOwner(s: State) {
    forall p, q | p in s.procs && q in s.procs :: Owns(s.procs[p]) && Owns(s.procs[q]) ==> p == q
  }

  /** A reserved cell follows only cells with receipts, and a receipt has its reservation. */
  ghost predicate InOrder(plan: seq<Id>, s: State) {
    && (forall at | 0 <= at < |plan| :: plan[at] in s.reserved ==> Sole(plan, at) && EarlierDone(plan, s.receipts, at))
    && (forall at | 0 <= at < |plan| :: plan[at] in s.receipts ==> plan[at] in s.reserved)
  }

  /** The launches go up the order, and all but the last have receipts. */
  ghost predicate Ascending(plan: seq<Id>, s: State) {
    && (forall i | 0 <= i < |s.launches| :: s.launches[i] < |plan| && plan[s.launches[i]] in s.reserved)
    && (forall i, j | 0 <= i < j < |s.launches| :: s.launches[i] < s.launches[j])
    && (forall i | 0 <= i < |s.launches| - 1 :: plan[s.launches[i]] in s.receipts)
  }

  ghost predicate Safe(plan: seq<Id>, s: State) {
    AllKnow(plan, s) && OneOwner(s) && InOrder(plan, s) && Ascending(plan, s)
  }

  // ---------------------------------------------------------------- every step keeps them

  /** A selected attempt is named at one position. */
  lemma SelectedSole(plan: seq<Id>, id: Id)
    requires |Selected(plan, id)| == 1
    ensures Sole(plan, Selected(plan, id)[0])
  {
    var ks := Selected(plan, id);
    forall k | 0 <= k < |plan| && plan[k] == id
      ensures k == ks[0]
    {
      assert Range(|plan|)[k] == k;
      assert k in ks;
    }
    assert ks[0] in ks;
  }

  /** A reserved cell without a receipt leaves no other cell that could still be reserved. */
  lemma OpenCellBlocks(plan: seq<Id>, s: State, at: nat, other: nat)
    requires InOrder(plan, s) && at < |plan| && plan[at] in s.reserved && plan[at] !in s.receipts
    requires other < |plan| && EarlierDone(plan, s.receipts, other) && other != at
    ensures plan[other] in s.receipts
  {
  }

  /** While a process owns a cell, every other cell that could follow is reserved already, and no other process
      owns one. */
  lemma OwnerBlocks(plan: seq<Id>, s: State, p: Pid, q: Pid)
    requires Safe(plan, s) && p in s.procs && q in s.procs && p != q && Owns(s.procs[p])
    ensures s.procs[q].Admitted? ==> plan[s.procs[q].at] in s.reserved
    ensures !Owns(s.procs[q])
  {
    assert Knows(plan, s, s.procs[p]) && Knows(plan, s, s.procs[q]);
    if s.procs[q].Admitted? && s.procs[q].at != s.procs[p].at {
      OpenCellBlocks(plan, s, s.procs[p].at, s.procs[q].at);
    }
  }

  /** All a turn can do: only this process moves, and each file changes at one place of the protocol. */
  ghost predicate Effect(plan: seq<Id>, s: State, p: Pid, t: State)
    requires p in s.procs
  {
    var pc := s.procs[p];
    && (forall q | q != p :: q in t.procs <==> q in s.procs)
    && (forall q | q in s.procs && q != p :: t.procs[q] == s.procs[q])
    && (t.reserved == s.reserved || (pc.Admitted? && pc.at < |plan| && plan[pc.at] !in s.reserved
                                     && t.reserved == s.reserved + {plan[pc.at]}))
    && (t.receipts == s.receipts
        || (pc.Settled? && pc.at < |plan| && t.receipts == s.receipts[plan[pc.at] := pc.result]))
    && (t.stop == s.stop || (Owns(pc) && t.stop))
    && (t.launches == s.launches || (pc.Holding? && t.launches == s.launches + [pc.at]))
    && (p in t.procs && Owns(t.procs[p]) ==> Owns(pc) || (pc.Admitted? && pc.at < |plan| && plan[pc.at] !in s.reserved))
  }

  lemma PerformHasEffect(plan: seq<Id>, s: State, p: Pid, a: Action)
    requires p in s.procs
    ensures Effect(plan, s, p, Perform(plan, s, p, a))
  {
  }

  lemma InterruptHasEffect(plan: seq<Id>, s: State, p: Pid, a: Action)
    requires p in s.procs
    ensures Effect(plan, s, p, Interrupt(s, p, a))
  {
  }

  lemma ApproachOwnsNothing(plan: seq<Id>, s: State, pc: Pc, a: Action)
    requires !Owns(pc)
    ensures !Owns(Approach(plan, s, pc, a))
  {
  }

  lemma TurnHasEffect(plan: seq<Id>, s: State, p: Pid, a: Action)
    requires p in s.procs
    ensures Effect(plan, s, p, Turn(plan, s, p, a))
  {
    if a.Trouble? || a.Abort? || a.Release? || a.Crash? {
      InterruptHasEffect(plan, s, p, a);
    } else if s.procs[p].Admitted? || Owns(s.procs[p]) {
      PerformHasEffect(plan, s, p, a);
    } else {
      ApproachOwnsNothing(plan, s, s.procs[p], a);
    }
  }

  /** What other processes know survives a turn. */
  lemma OthersKnow(plan: seq<Id>, s: State, p: Pid, t: State, q: Pid)
    requires p in s.procs && q in s.procs && q != p && Safe(plan, s) && Effect(plan, s, p, t)
    ensures Knows(plan, t, s.procs[q])
  {
    assert Knows(plan, s, s.procs[q]) && Knows(plan, s, s.procs[p]);
    if Owns(s.procs[p]) {
      OwnerBlocks(plan, s, p, q);
    } else if Owns(s.procs[q]) {
      OwnerBlocks(plan, s, q, p);
    }
  }

  lemma TurnKnows(plan: seq<Id>, s: State, p: Pid, a: Action)
    requires p in s.procs && Safe(plan, s)
    ensures AllKnow(plan, Turn(plan, s, p, a))
  {
    var t := Turn(plan, s, p, a);
    TurnHasEffect(plan, s, p, a);
    forall q | q in t.procs && q != p
      ensures Knows(plan, t, t.procs[q])
    {
      OthersKnow(plan, s, p, t, q);
    }
    if p in t.procs {
      SelfKnows(plan, s, p, a);
    }
  }

  lemma SelfKnows(plan: seq<Id>, s: State, p: Pid, a: Action)
    requires p in s.procs && Safe(plan, s) && p in Turn(plan, s, p, a).procs
    ensures Knows(plan, Turn(plan, s, p, a), Turn(plan, s, p, a).procs[p])
  {
    assert Knows(plan, s, s.procs[p]);
    if !(a.Trouble? || a.Abort? || a.Release? || a.Crash?) {
      if s.procs[p].Admitted? || Owns(s.procs[p]) {
        PerformKnows(plan, s, p, a);
      } else {
        ApproachKnows(plan, s, s.procs[p], a);
      }
    }
  }

  lemma ApproachKnows(plan: seq<Id>, s: State, pc: Pc, a: Action)
    requires Knows(plan, s, pc)
    ensures Knows(plan, s, Approach(plan, s, pc, a))
  {
    if a.Choose? && |Selected(plan, a.id)| == 1 {
      SelectedSole(plan, a.id);
    }
  }

  lemma PerformKnows(plan: seq<Id>, s: State, p: Pid, a: Action)
    requires p in s.procs && Knows(plan, s, s.procs[p]) && InOrder(plan, s) && Ascending(plan, s)
    ensures var t := Perform(plan, s, p, a); p in t.procs && Knows(plan, t, t.procs[p])
  {
  }

  lemma TurnOneOwner(plan: seq<Id>, s: State, p: Pid, t: State)
    requires p in s.procs && Safe(plan, s) && Effect(plan, s, p, t)
    ensures OneOwner(t)
  {
    if p in t.procs && Owns(t.procs[p]) {
      forall q | q in s.procs && q != p
        ensures !Owns(s.procs[q])
      {
        if Owns(s.procs[q]) {
          OwnerBlocks(plan, s, q, p);
        }
      }
    }
  }

  lemma TurnInOrder(plan: seq<Id>, s: State, p: Pid, t: State)
    requires p in s.procs && Safe(plan, s) && Effect(plan, s, p, t)
    ensures InOrder(plan, t)
  {
    assert Knows(plan, s, s.procs[p]);
  }

  lemma TurnAscending(plan: seq<Id>, s: State, p: Pid, t: State)
    requires p in s.procs && Safe(plan, s) && Effect(plan, s, p, t)
    ensures Ascending(plan, t)
  {
    assert Knows(plan, s, s.procs[p]);
  }

  /** Every action keeps every invariant. */
  lemma StepKeeps(plan: seq<Id>, s: State, a: Action)
    requires Safe(plan, s)
    ensures Safe(plan, Step(plan, s, a))
  {
    if !a.DeleteLock? && !a.Start? && a.p in s.procs {
      TurnKnows(plan, s, a.p, a);
      TurnHasEffect(plan, s, a.p, a);
      TurnOneOwner(plan, s, a.p, Turn(plan, s, a.p, a));
      TurnInOrder(plan, s, a.p, Turn(plan, s, a.p, a));
      TurnAscending(plan, s, a.p, Turn(plan, s, a.p, a));
    }
  }

  lemma {:induction false} RunKeeps(plan: seq<Id>, s: State, actions: seq<Action>)
    requires Safe(plan, s)
    ensures Safe(plan, RunFrom(plan, s, actions))
  {
    if actions != [] {
      RunKeeps(plan, s, actions[..|actions| - 1]);
      StepKeeps(plan, RunFrom(plan, s, actions[..|actions| - 1]), actions[|actions| - 1]);
    }
  }

  // ---------------------------------------------------------------- what the frozen order is for

  /** In every run, a receipt stands only behind receipts for every earlier cell. */
  lemma ReceiptsArePrefix(plan: seq<Id>, actions: seq<Action>)
    ensures forall i, j | 0 <= i < j < |plan| :: plan[j] in Run(plan, actions).receipts ==>
              plan[i] in Run(plan, actions).receipts
  {
    RunKeeps(plan, INIT, actions);
    var s := Run(plan, actions);
    forall i, j | 0 <= i < j < |plan| && plan[j] in s.receipts
      ensures plan[i] in s.receipts
    {
      assert EarlierDone(plan, s.receipts, j);
    }
  }

  /** In every run, agents are launched in the frozen order, no cell twice, and none before the receipt of every
      earlier launch is on disk: never two agents in flight, even past a deleted lock. */
  lemma LaunchesFollowTheOrder(plan: seq<Id>, actions: seq<Action>)
    ensures var s := Run(plan, actions);
            && (forall i | 0 <= i < |s.launches| :: s.launches[i] < |plan|)
            && (forall i, j | 0 <= i < j < |s.launches| :: s.launches[i] < s.launches[j])
            && (forall i, j | 0 <= i < j < |s.launches| :: plan[s.launches[i]] != plan[s.launches[j]])
            && (forall i | 0 <= i < |s.launches| - 1 :: plan[s.launches[i]] in s.receipts)
  {
    RunKeeps(plan, INIT, actions);
    var s := Run(plan, actions);
    forall i, j | 0 <= i < j < |s.launches|
      ensures plan[s.launches[i]] != plan[s.launches[j]]
    {
      assert Sole(plan, s.launches[i]);
    }
  }

  /** The step in which a process came to its result: the evaluation said so, or the error handler gave up. */
  predicate Decides(pc: Pc, stop: bool, a: Action, at: nat, result: Outcome) {
    match result
    case Passed => pc == Judging(at) && a.Evaluate? && a.accepted
    case Failed => pc == Judging(at) && a.Evaluate? && !a.accepted
    case Incomplete => (pc == Failing(at) && a.CheckStop? && stop) || (pc == Stopping(at) && a.PublishStop? && !stop)
  }

  /** Action `i` of the history was that step. */
  ghost predicate DecidedAt(plan: seq<Id>, actions: seq<Action>, i: nat, at: nat, result: Outcome) {
    && i < |actions| && !actions[i].DeleteLock?
    && var s, a := Run(plan, actions[..i]), actions[i];
       a.p in s.procs && Decides(s.procs[a.p], s.stop, a, at, result)
  }

  ghost predicate Decided(plan: seq<Id>, actions: seq<Action>, at: nat, result: Outcome) {
    exists i: nat :: DecidedAt(plan, actions, i, at, result)
  }

  /** Every result a process carries and every receipt on disk was decided by such a step, for its own cell. */
  ghost predicate AllDecided(plan: seq<Id>, actions: seq<Action>, s: State) {
    && (forall p | p in s.procs :: s.procs[p].Settled? ==> Decided(plan, actions, s.procs[p].at, s.procs[p].result))
    && (forall id | id in s.receipts :: ReceiptDecided(plan, actions, id, s.receipts[id]))
  }

  ghost predicate ReceiptDecided(plan: seq<Id>, actions: seq<Action>, id: Id, result: Outcome) {
    exists at: nat :: at < |plan| && plan[at] == id && Decided(plan, actions, at, result)
  }

  /** One more action takes nothing back. */
  lemma DecidedStays(plan: seq<Id>, actions: seq<Action>, a: Action)
    ensures forall at: nat, result: Outcome :: Decided(plan, actions, at, result) ==>
              Decided(plan, actions + [a], at, result)
    ensures forall id, result :: ReceiptDecided(plan, actions, id, result) ==>
                                 ReceiptDecided(plan, actions + [a], id, result)
  {
    forall at: nat, result: Outcome | Decided(plan, actions, at, result)
      ensures Decided(plan, actions + [a], at, result)
    {
      var i: nat :| DecidedAt(plan, actions, i, at, result);
      assert (actions + [a])[..i] == actions[..i];
      assert DecidedAt(plan, actions + [a], i, at, result);
    }
  }

  /** A turn settles a process only by deciding, and publishes only what was decided. */
  lemma TurnDecides(plan: seq<Id>, s: State, p: Pid, a: Action)
    requires p in s.procs
    ensures var t := Turn(plan, s, p, a);
            && (p in t.procs && t.procs[p].Settled? && t.procs[p] != s.procs[p] ==>
                  Decides(s.procs[p], s.stop, a, t.procs[p].at, t.procs[p].result))
            && (t.receipts == s.receipts
                || (s.procs[p].Settled? && s.procs[p].at < |plan|
                    && t.receipts == s.receipts[plan[s.procs[p].at] := s.procs[p].result]))
            && (forall q | q in t.procs && q != p :: q in s.procs && t.procs[q] == s.procs[q])
  {
    TurnHasEffect(plan, s, p, a);
  }

  lemma RunMore(plan: seq<Id>, before: seq<Action>, a: Action)
    ensures Run(plan, before + [a]) == Step(plan, Run(plan, before), a)
  {
    assert (before + [a])[..|before|] == before;
  }

  lemma MoreDecides(plan: seq<Id>, before: seq<Action>, a: Action)
    requires AllDecided(plan, before, Run(plan, before))
    ensures AllDecided(plan, before + [a], Run(plan, before + [a]))
  {
    DecidedMore(plan, before, a);
    StepDecides(plan, before, a);
    RunMore(plan, before, a);
  }

  lemma {:induction false} RunDecides(plan: seq<Id>, actions: seq<Action>)
    ensures AllDecided(plan, actions, Run(plan, actions))
  {
    if actions != [] {
      var before, a := actions[..|actions| - 1], actions[|actions| - 1];
      assert actions == before + [a];
      RunDecides(plan, before);
      MoreDecides(plan, before, a);
    }
  }

  lemma DecidedMore(plan: seq<Id>, before: seq<Action>, a: Action)
    requires AllDecided(plan, before, Run(plan, before))
    ensures AllDecided(plan, before + [a], Run(plan, before))
  {
    DecidedStays(plan, before, a);
  }

  lemma StepDecides(plan: seq<Id>, before: seq<Action>, a: Action)
    requires AllDecided(plan, before + [a], Run(plan, before))
    ensures AllDecided(plan, before + [a], Step(plan, Run(plan, before), a))
  {
    var s, all := Run(plan, before), before + [a];
    if !a.DeleteLock? && !a.Start? && a.p in s.procs {
      var t := Turn(plan, s, a.p, a);
      TurnDecides(plan, s, a.p, a);
      assert all[..|before|] == before;
      if a.p in t.procs && t.procs[a.p].Settled? && t.procs[a.p] != s.procs[a.p] {
        assert DecidedAt(plan, all, |before|, t.procs[a.p].at, t.procs[a.p].result);
      }
    }
  }

  /** In every run, a passed receipt has an accepted evaluation of that very cell, a failed one an evaluation that was
      not accepted, and an incomplete one an error handler that found or published the stop file. */
  lemma ReceiptsAreDecided(plan: seq<Id>, actions: seq<Action>, id: Id)
    requires id in Run(plan, actions).receipts
    ensures ReceiptDecided(plan, actions, id, Run(plan, actions).receipts[id])
  {
    RunDecides(plan, actions);
  }

  /** The cell is reserved, has no receipt, and no live process owns it. */
  predicate Stuck(plan: seq<Id>, s: State, at: nat) {
    && at < |plan| && plan[at] in s.reserved && plan[at] !in s.receipts
    && forall p | p in s.procs :: Owns(s.procs[p]) ==> s.procs[p].at != at
  }

  /** With a stuck cell no process owns any cell, and none can reserve one. */
  lemma StuckMeansIdle(plan: seq<Id>, s: State, at: nat, p: Pid)
    requires Safe(plan, s) && Stuck(plan, s, at) && p in s.procs
    ensures !Owns(s.procs[p])
    ensures s.procs[p].Admitted? ==> s.procs[p].at < |plan| && plan[s.procs[p].at] in s.reserved
  {
    assert Knows(plan, s, s.procs[p]);
    if (Owns(s.procs[p]) || s.procs[p].Admitted?) && s.procs[p].at != at {
      OpenCellBlocks(plan, s, at, s.procs[p].at);
    }
  }

  lemma StuckStays(plan: seq<Id>, s: State, at: nat, a: Action)
    requires Safe(plan, s) && Stuck(plan, s, at)
    ensures var t := Step(plan, s, a);
            Stuck(plan, t, at) && t.launches == s.launches && t.receipts == s.receipts && t.reserved == s.reserved
  {
    if !a.DeleteLock? && !a.Start? && a.p in s.procs {
      StuckMeansIdle(plan, s, at, a.p);
      TurnHasEffect(plan, s, a.p, a);
    }
  }

  lemma {:induction false} StuckForever(plan: seq<Id>, s: State, at: nat, later: seq<Action>)
    requires Safe(plan, s) && Stuck(plan, s, at)
    ensures var t := RunFrom(plan, s, later);
            Stuck(plan, t, at) && t.launches == s.launches && t.receipts == s.receipts && t.reserved == s.reserved
  {
    if later != [] {
      var init := later[..|later| - 1];
      StuckForever(plan, s, at, init);
      RunKeeps(plan, s, init);
      StuckStays(plan, RunFrom(plan, s, init), at, later[|later| - 1]);
    }
  }

  lemma {:induction false} StopIsFinal(plan: seq<Id>, s: State, later: seq<Action>)
    requires Safe(plan, s) && s.stop
    ensures RunFrom(plan, s, later).stop && RunFrom(plan, s, later).launches == s.launches
  {
    if later != [] {
      var init := later[..|later| - 1];
      StopIsFinal(plan, s, init);
      RunKeeps(plan, s, init);
      var t, a := RunFrom(plan, s, init), later[|later| - 1];
      if a.Launch? && a.p in t.procs {
        assert Knows(plan, t, t.procs[a.p]);
      }
    }
  }

  lemma {:induction false} RunAppend(plan: seq<Id>, before: seq<Action>, later: seq<Action>)
    ensures Run(plan, before + later) == RunFrom(plan, Run(plan, before), later)
  {
    var all := before + later;
    if later == [] {
      assert all == before;
    } else {
      RunAppend(plan, before, later[..|later| - 1]);
      assert all[..|all| - 1] == before + later[..|later| - 1];
    }
  }

  /** In every run, once a reservation has lost its process before the receipt, nothing is reserved, launched or
      published any more, for that cell or any other. */
  lemma LostReservationBlocks(plan: seq<Id>, before: seq<Action>, later: seq<Action>, at: nat)
    requires Stuck(plan, Run(plan, before), at)
    ensures var s, t := Run(plan, before), Run(plan, before + later);
            plan[at] !in t.receipts && t.launches == s.launches && t.receipts == s.receipts && t.reserved == s.reserved
  {
    RunKeeps(plan, INIT, before);
    RunAppend(plan, before, later);
    StuckForever(plan, Run(plan, before), at, later);
  }

  /** In every run, no agent is launched after the provider-stop file appears. */
  lemma NoLaunchAfterStop(plan: seq<Id>, before: seq<Action>, later: seq<Action>)
    requires Run(plan, before).stop
    ensures Run(plan, before + later).launches == Run(plan, before).launches
  {
    RunKeeps(plan, INIT, before);
    RunAppend(plan, before, later);
    StopIsFinal(plan, Run(plan, before), later);
  }

  // ---------------------------------------------------------------- the report

  datatype Row = Observed(outcome: Outcome) | Unfinished | NotRun

  function RowOf(s: State, id: Id): (r: Row) {
    if id in s.receipts then Observed(s.receipts[id]) else if id in s.reserved then Unfinished else NotRun
  }

  /** `report`: one row per planned cell. */
  method Report(plan: seq<Id>, s: State) returns (rows: seq<Row>, complete: bool)
    ensures |rows| == |plan| && forall k | 0 <= k < |plan| :: rows[k] == RowOf(s, plan[k])
    ensures forall k | 0 <= k < |plan| ::
              if plan[k] in s.receipts then rows[k] == Observed(s.receipts[plan[k]])
              else rows[k] == Unfinished <==> plan[k] in s.reserved
    ensures complete <==> forall k | 0 <= k < |plan| :: plan[k] in s.receipts && s.receipts[plan[k]] != Incomplete
  {
    rows, complete := [], true;
    for k := 0 to |plan|
      invariant |rows| == k && forall i | 0 <= i < k :: rows[i] == RowOf(s, plan[i])
      invariant complete <==> forall i | 0 <= i < k :: plan[i] in s.receipts && s.receipts[plan[i]] != Incomplete
    {
      var row := RowOf(s, plan[k]);
      rows := rows + [row];
      complete := complete && row.Observed? && row.outcome != Incomplete;
    }
  }

  /** In every run the report is a block of observed cells, then at most one unfinished cell, then cells not run. */
  lemma ReportShape(plan: seq<Id>, actions: seq<Action>, i: nat, j: nat)
    requires i < j < |plan|
    ensures RowOf(Run(plan, actions), plan[j]) != NotRun ==> RowOf(Run(plan, actions), plan[i]).Observed?
  {
    RunKeeps(plan, INIT, actions);
    var s := Run(plan, actions);
    if plan[j] in s.reserved || plan[j] in s.receipts {
      assert EarlierDone(plan, s.receipts, j);
    }
  }
}
