/**
 * No night is stuck: whoever holds the lock can finish on its own and let the next night in, and an error leaves an
 * incomplete receipt behind.
 */
module NightlyProgress {
  import opened Lists
  import opened Nightly
  import NightlyRisk

  /** An error anywhere after the receipt was looked for, except while waiting for a live child, ends the process: its
      receipt says incomplete and names the head it had announced, and its lock is free. */
  lemma ErrorIsRecorded(s: State, p: Pid)
    requires p in s.procs && !s.procs[p].pc.Started? && !s.procs[p].pc.Locked?
    requires s.procs[p].pc.Waiting? ==> s.procs[p].pc.child !in s.procs
    ensures var t, q := Step(s, Raise(p)), s.procs[p];
            && t.procs == s.procs - {p} && t.lock != Some(p) && (s.lock != Some(p) ==> t.lock == s.lock)
            && q.date in t.receipts && t.receipts[q.date].status == Incomplete
            && (t.receipts[q.date].head.None? <==> q.pc.Vacant? || q.pc.Reserved? || q.pc.Ready?)
            && (t.receipts[q.date].head.Some? ==> t.receipts[q.date].head.value == q.pc.head)
            && t.green == s.green
  {
  }

  /** A preflight that does not allow the night leaves a blocked receipt, and the process ends without touching main or
      last-green. */
  lemma RefusedPreflightIsRecorded(s: State, p: Pid)
    requires p in s.procs && s.procs[p].pc.Reserved?
    ensures var t, d := Step(s, Preflight(p, false)), s.procs[p].date;
            && t.procs == s.procs - {p} && t.lock != Some(p) && t.green == s.green && t.reservations == s.reservations
            && d in t.receipts && t.receipts[d] == Receipt(Blocked, None)
  {
  }

  /** How many more steps a process has before it, at most. */
  function Rank(pc: Pc): (n: nat) {
    match pc
    case Started => 1
    case Locked => 12
    case Vacant => 11
    case Reserved => 10
    case Ready => 9
    case Headed(_) => 8
    case Fetched(_, _) => 7
    case Announced(_, _, handOver) => if handOver then 40 else 6
    case Ran(_, _, _) => 5
    case Final(_, _, _) => 4
    case Done(_) => 3
    case TimedOut(_) => 2
    case Waiting(_, _) => 14
  }

  /** The same, counting the child a process waits for. */
  function Left(s: State, p: Pid): (n: nat)
    requires p in s.procs
  {
    var pc := s.procs[p].pc;
    Rank(pc) + if pc.Waiting? && pc.child in s.procs then 1 + Rank(s.procs[pc.child].pc) else 0
  }

  /** Nothing is killed, dies or raises. */
  predicate Orderly(a: Action) {
    !a.Crash? && !a.KillChild? && !a.Raise?
  }

  /** The lock is free, or its holder has fewer steps left and has not timed out. */
  predicate Closer(s: State, h: Pid, t: State)
    requires h in s.procs
  {
    t.lock == None || (t.lock == Some(h) && h in t.procs && Left(t, h) < Left(s, h) && !t.procs[h].pc.TimedOut?)
  }

  /** The next step of a process that waits for nobody. */
  function NextOf(p: Pid, pc: Pc): (a: Action)
    requires Plain(pc)
  {
    match pc
    case Started => TakeLock(p)
    case Locked => Look(p)
    case Vacant => Reserve(p)
    case Reserved => Preflight(p, true)
    case Ready => Fetch(p)
    case Headed(_) => ReadGreen(p)
    case Fetched(_, _) => Announce(p, false)
    case Announced(_, _, _) => RunTests(p, Passed, 0)
    case Ran(_, _, _) => WriteReceipt(p)
    case Final(_, _, status) => if status == Passed then WriteGreen(p) else Leave(p)
    case Done(_) => Leave(p)
  }

  /** Waits for nobody, is not about to hand over, and has not timed out. */
  predicate Plain(pc: Pc) {
    !pc.Waiting? && !pc.TimedOut? && (pc.Announced? ==> !pc.handOver)
  }

  /** The process is gone, with its lock, or it alone has moved, closer to its end. */
  predicate Stepped(s: State, p: Pid, t: State)
    requires p in s.procs
  {
    || (t.procs == s.procs - {p} && t.lock == (if s.lock == Some(p) then None else s.lock))
    || (p in t.procs && t.procs == s.procs[p := t.procs[p]] && t.lock == s.lock
        && t.procs[p].continuing == s.procs[p].continuing
        && Plain(t.procs[p].pc) && Rank(t.procs[p].pc) < Rank(s.procs[p].pc))
  }

  lemma AdmitSteps(s: State, p: Pid)
    requires p in s.procs && Plain(s.procs[p].pc) && (s.procs[p].pc.Started? ==> s.lock.Some?)
    requires s.procs[p].pc.Started? || s.procs[p].pc.Locked? || s.procs[p].pc.Vacant? || s.procs[p].pc.Reserved?
    ensures Stepped(s, p, Admit(s, p, NextOf(p, s.procs[p].pc)))
  {
  }

  lemma ReadingSteps(s: State, p: Pid)
    requires p in s.procs && (s.procs[p].pc.Ready? || s.procs[p].pc.Headed? || s.procs[p].pc.Fetched?)
    ensures Stepped(s, p, Work(s, p, NextOf(p, s.procs[p].pc)))
  {
  }

  lemma TestingSteps(s: State, p: Pid)
    requires p in s.procs && Plain(s.procs[p].pc) && (s.procs[p].pc.Announced? || s.procs[p].pc.Ran?)
    ensures Stepped(s, p, Work(s, p, NextOf(p, s.procs[p].pc)))
  {
  }

  lemma EndingSteps(s: State, p: Pid)
    requires p in s.procs && (s.procs[p].pc.Final? || s.procs[p].pc.Done?)
    ensures Stepped(s, p, Work(s, p, NextOf(p, s.procs[p].pc)))
  {
  }

  /** A process that waits for nobody takes its next step or leaves. */
  lemma OwnStep(s: State, p: Pid)
    requires p in s.procs && Plain(s.procs[p].pc) && (s.procs[p].pc.Started? ==> s.lock.Some?)
    ensures Orderly(NextOf(p, s.procs[p].pc)) && Stepped(s, p, Step(s, NextOf(p, s.procs[p].pc)))
  {
    var pc := s.procs[p].pc;
    if pc.Started? || pc.Locked? || pc.Vacant? || pc.Reserved? {
      AdmitSteps(s, p);
    } else if pc.Ready? || pc.Headed? || pc.Fetched? {
      ReadingSteps(s, p);
    } else if pc.Announced? || pc.Ran? {
      TestingSteps(s, p);
    } else {
      EndingSteps(s, p);
    }
  }

  /** The lock holder, or the child it waits for, can take a step that brings the end closer. */
  lemma HolderSteps(s: State, h: Pid) returns (a: Action)
    requires LockHeld(s) && s.lock == Some(h) && !s.procs[h].pc.TimedOut?
    ensures Orderly(a) && Closer(s, h, Step(s, a))
  {
    var pc := s.procs[h].pc;
    if pc.Waiting? {
      a := WaitingSteps(s, h);
    } else if pc.Announced? && pc.handOver {
      var c, d := NightlyRisk.Fresh(s);
      a := Reexec(h, c, s.procs[h].date);
    } else {
      OwnStep(s, h);
      a := NextOf(h, pc);
    }
  }

  lemma WaitingSteps(s: State, h: Pid) returns (a: Action)
    requires LockHeld(s) && s.lock == Some(h) && s.procs[h].pc.Waiting?
    ensures Orderly(a) && Closer(s, h, Step(s, a))
  {
    var c := s.procs[h].pc.child;
    assert !Waits(s.procs[h], h);
    if c in s.procs {
      assert Parent(s.procs[c]) ==> s.lock == Some(c);
      OwnStep(s, c);
      a := NextOf(c, s.procs[c].pc);
    } else {
      a := ChildEnded(h);
    }
  }

  lemma StepKeepsLockHeld(s: State, a: Action)
    requires LockHeld(s)
    ensures LockHeld(Step(s, a))
  {
    if a.Merge? || a.Launch? {
    } else if a.p in s.procs {
      AdmitKeepsLock(s, a.p, a);
      WorkKeepsLock(s, a.p, a);
      FamilyKeepsLock(s, a.p, a);
    }
  }

  ghost predicate AllOrderly(actions: seq<Action>) {
    forall i :: 0 <= i < |actions| ==> Orderly(actions[i])
  }

  /** One action before a run. */
  lemma {:induction false} RunFirst(s: State, a: Action, later: seq<Action>)
    ensures RunOn(s, [a] + later) == RunOn(Step(s, a), later)
  {
    var all := [a] + later;
    if later == [] {
      assert all[..0] == [];
    } else {
      RunFirst(s, a, later[..|later| - 1]);
      assert all[..|all| - 1] == [a] + later[..|later| - 1];
    }
  }

  lemma {:induction false} HolderFinishes(s: State, h: Pid) returns (actions: seq<Action>)
    requires LockHeld(s) && s.lock == Some(h) && !s.procs[h].pc.TimedOut?
    ensures AllOrderly(actions) && RunOn(s, actions).lock == None
    decreases Left(s, h)
  {
    var a := HolderSteps(s, h);
    var t := Step(s, a);
    if t.lock == None {
      assert RunOn(s, []) == s;
      actions := [a];
      RunFirst(s, a, []);
    } else {
      StepKeepsLockHeld(s, a);
      var later := HolderFinishes(t, h);
      RunFirst(s, a, later);
      actions := [a] + later;
    }
  }

  /** After any history the lock comes free by ordinary steps alone, unless its holder has just killed its child; then
      recording the error frees it. */
  lemma LockComesFree(actions: seq<Action>) returns (more: seq<Action>)
    ensures RunOn(Run(actions), more).lock == None
    ensures AllOrderly(more) || (exists h :: more == [Raise(h)] && TimedOutHolder(Run(actions), h))
  {
    RunKeeps(actions);
    var s := Run(actions);
    if s.lock == None {
      more := [];
      assert RunOn(s, more) == s;
    } else {
      var h := s.lock.value;
      if s.procs[h].pc.TimedOut? {
        more := [Raise(h)];
        assert RunOn(Step(s, Raise(h)), []) == Step(s, Raise(h));
        RunFirst(s, Raise(h), []);
        ErrorIsRecorded(s, h);
        assert TimedOutHolder(s, h);
      } else {
        more := HolderFinishes(s, h);
      }
    }
  }

  predicate TimedOutHolder(s: State, h: Pid) {
    s.lock == Some(h) && h in s.procs && s.procs[h].pc.TimedOut?
  }
}
