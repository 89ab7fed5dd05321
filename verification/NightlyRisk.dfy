/**
 * Exactly when the chain of green ranges of the nightly protocol can still break: a state is at risk if a
 * re-executed child is live and nobody waits for it, or a live process would write from an overtaken baseline.
 */
module NightlyRisk {
  import opened Lists
  import opened Nightly

  // ---------------------------------------------------------------- the condition

  /** Has read a baseline and can still move last-green from it. */
  predicate LiveBased(pc: Pc) {
    match pc
    case Fetched(_, _) => true
    case Announced(_, _, handOver) => !handOver
    case Ran(_, _, status) => status == Passed
    case Final(_, _, status) => status == Passed
    case _ => false
  }

  /** Is past the preflight and can still move last-green. */
  predicate LivePc(pc: Pc) {
    pc.Ready? || pc.Headed? || LiveBased(pc)
  }

  predicate Attends(s: State, c: Pid) {
    s.lock.Some? && s.lock.value in s.procs && Waits(s.procs[s.lock.value], c)
  }

  /** A live child for which the lock holder, if there is one, does not wait. */
  predicate Loose(s: State, c: Pid) {
    c in s.procs && s.procs[c].continuing && LivePc(s.procs[c].pc) && !Attends(s, c)
  }

  /** A live process whose range would start elsewhere than at the last green head. */
  predicate Stale(s: State, p: Pid) {
    && p in s.procs && LiveBased(s.procs[p].pc)
    && s.greens != [] && BaseOf(s.procs[p].pc.head, s.procs[p].pc.baseline) != s.greens[|s.greens| - 1].head
  }

  ghost predicate AtRisk(s: State) {
    exists p :: Loose(s, p) || Stale(s, p)
  }

  /** The same files and processes, with no parent counted as lost yet. */
  function Afresh(s: State): (t: State) {
    s.(orphaned := false)
  }

  /** Some actions lead from one state to the other, and in none of them a parent dies before its child. */
  ghost predicate Quietly(s: State, t: State) {
    From(Afresh(s), t) && !t.orphaned
  }

  // ---------------------------------------------------------------- a state at risk can break the chain

  /** A range from anywhere but the last head breaks the chain. */
  lemma WrongBase(greens: seq<Green>, more: seq<Green>)
    requires greens != [] && |more| == |greens| + 1 && more[..|greens|] == greens
    requires more[|greens|].base != greens[|greens| - 1].head
    ensures !Chained(more)
  {
    assert more[|greens| - 1] == greens[|greens| - 1];
  }

  /** From wherever it stands, a live process that has read its baseline can pass and move last-green. */
  lemma Completes(s0: State, s: State, p: Pid) returns (t: State)
    requires From(s0, s) && p in s.procs && LiveBased(s.procs[p].pc)
    ensures From(s0, t) && t.orphaned == s.orphaned
    ensures |t.greens| == |s.greens| + 1 && t.greens[..|s.greens|] == s.greens
    ensures t.greens[|s.greens|].base == BaseOf(s.procs[p].pc.head, s.procs[p].pc.baseline)
  {
    var q := s.procs[p];
    match q.pc
    case Fetched(head, baseline) =>
      Declares(s0, s, p, q, head, baseline, false);
      var u := s.(procs := s.procs[p := q.(pc := Announced(head, baseline, false))],
                  receipts := s.receipts[q.date := Receipt(Running, Some(head))]);
      t := Finishes(s0, u, p, u.procs[p], head, baseline);
    case Announced(head, baseline, _) =>
      t := Finishes(s0, s, p, q, head, baseline);
    case Ran(head, baseline, _) =>
      var u := Step(s, WriteReceipt(p));
      StepReaches(s0, s, WriteReceipt(p));
      t := Settles(s0, u, p, u.procs[p], head, baseline);
    case Final(head, baseline, _) =>
      t := Settles(s0, s, p, q, head, baseline);
  }

  lemma StaleBreaks(s0: State, s: State, p: Pid) returns (t: State)
    requires From(s0, s) && Stale(s, p)
    ensures From(s0, t) && t.orphaned == s.orphaned && !Chained(t.greens)
  {
    t := Completes(s0, s, p);
    WrongBase(s.greens, t.greens);
  }

  /** A lock holder that waits for another child can time out, killing it. */
  lemma TimesOut(s0: State, s: State, h: Pid, c: Pid) returns (t: State)
    requires From(s0, s) && Placed(s) && h in s.procs && c in s.procs && c != h && !Waits(s.procs[h], c)
    requires s.lock == Some(h)
    ensures From(s0, t) && t.orphaned == s.orphaned && Placed(t) && c in t.procs && t.procs[c] == s.procs[c]
    ensures t.lock == None || (t.lock == Some(h) && h in t.procs && !t.procs[h].pc.Waiting?)
  {
    StepReaches(s0, s, KillChild(h));
    FamilyKeepsPlaces(s, h, KillChild(h));
    t := Family(s, h, KillChild(h));
    assert t == Step(s, KillChild(h));
  }

  /** A lock holder that waits for nobody can die. */
  lemma Dies(s0: State, s: State, h: Pid, c: Pid) returns (t: State)
    requires From(s0, s) && Placed(s) && h in s.procs && c in s.procs && c != h && !s.procs[h].pc.Waiting?
    requires s.lock == Some(h)
    ensures From(s0, t) && t.orphaned == s.orphaned && Placed(t) && c in t.procs && t.procs[c] == s.procs[c]
    ensures t.lock == None
  {
    StepReaches(s0, s, Crash(h));
    FamilyKeepsPlaces(s, h, Crash(h));
    t := Family(s, h, Crash(h));
    assert t == Step(s, Crash(h));
  }

  /** So beside a loose child the lock can become free. */
  lemma Frees(s0: State, s: State, c: Pid) returns (t: State)
    requires From(s0, s) && LockHeld(s) && Placed(s) && Loose(s, c)
    ensures From(s0, t) && t.lock == None && t.orphaned == s.orphaned && Placed(t)
    ensures c in t.procs && t.procs[c] == s.procs[c]
  {
    t := s;
    if s.lock.Some? {
      var h := s.lock.value;
      t := TimesOut(s0, s, h, c);
      if t.lock.Some? {
        t := Dies(s0, t, h, c);
      }
    }
  }

  lemma ReadsMain(s0: State, s: State, c: Pid) returns (t: State)
    requires From(s0, s) && Placed(s) && c in s.procs && s.procs[c].pc.Ready?
    ensures From(s0, t) && t.lock == s.lock && t.orphaned == s.orphaned && Placed(t)
    ensures c in t.procs && t.procs[c].pc.Headed?
  {
    StepReaches(s0, s, Fetch(c));
    WorkKeepsPlaces(s, c, Fetch(c));
    t := Work(s, c, Fetch(c));
    assert t == Step(s, Fetch(c));
  }

  lemma ReadsBaseline(s0: State, s: State, c: Pid) returns (t: State)
    requires From(s0, s) && Placed(s) && c in s.procs && s.procs[c].pc.Headed?
    ensures From(s0, t) && t.lock == s.lock && t.orphaned == s.orphaned && Placed(t)
    ensures c in t.procs && LiveBased(t.procs[c].pc)
  {
    StepReaches(s0, s, ReadGreen(c));
    WorkKeepsPlaces(s, c, ReadGreen(c));
    t := Work(s, c, ReadGreen(c));
    assert t == Step(s, ReadGreen(c));
  }

  /** The loose child reads main and last-green if it has not yet done so. */
  lemma Settled(s0: State, s: State, c: Pid) returns (t: State)
    requires From(s0, s) && Placed(s) && c in s.procs && LivePc(s.procs[c].pc)
    ensures From(s0, t) && t.lock == s.lock && t.orphaned == s.orphaned && Placed(t)
    ensures c in t.procs && LiveBased(t.procs[c].pc)
  {
    t := s;
    if t.procs[c].pc.Ready? {
      t := ReadsMain(s0, t, c);
    }
    if t.procs[c].pc.Headed? {
      t := ReadsBaseline(s0, t, c);
    }
  }

  lemma {:induction false} Beyond(xs: set<nat>) returns (n: nat)
    ensures forall x | x in xs :: x < n
    decreases xs
  {
    n := 0;
    if x :| x in xs {
      var m := Beyond(xs - {x});
      n := if m > x then m else x + 1;
      assert forall y | y in xs :: y == x || y in xs - {x};
    }
  }

  /** There is always a process number nobody uses, and a date nobody has reserved. */
  lemma Fresh(s: State) returns (p: Pid, d: Date)
    ensures Unused(s, p) && d !in s.receipts
  {
    var children := set q | q in s.procs && s.procs[q].pc.Waiting? :: s.procs[q].pc.child;
    p := Beyond(s.procs.Keys + children);
    d := Beyond(s.receipts.Keys);
    assert p !in s.procs.Keys + children;
    forall q | q in s.procs && s.procs[q].pc.Waiting?
      ensures s.procs[q].pc.child != p
    {
      assert s.procs[q].pc.child in children;
    }
    assert d !in s.receipts.Keys;
  }

  /** With the lock free, a night of a new date can pass on a newer main. */
  lemma AnotherNight(s0: State, s: State) returns (t: State)
    requires From(s0, s) && s.lock == None
    ensures From(s0, t) && t.orphaned == s.orphaned
    ensures t.greens != [] && t.greens[|t.greens| - 1].head == s.main + 1
    ensures forall c | c in s.procs :: c in t.procs && t.procs[c] == s.procs[c]
  {
    var p, d := Fresh(s);
    Arrives(s0, s, p, d);
    var u := s.(main := s.main + 1, procs := s.procs[p := Proc(d, false, Vacant)], lock := Some(p));
    Prepares(s0, u, p, d, false);
    var v := u.(procs := u.procs[p := Proc(d, false, Announced(u.main, u.green, false))],
                reservations := u.reservations + [d],
                receipts := u.receipts[d := Receipt(Running, Some(u.main))]);
    t := Finishes(s0, v, p, v.procs[p], u.main, u.green);
  }

  /** A loose child lets a later night overtake it and then writes from its old baseline. */
  lemma LooseBreaks(s0: State, s: State, c: Pid) returns (t: State)
    requires From(s0, s) && LockHeld(s) && Placed(s) && Loose(s, c)
    ensures From(s0, t) && t.orphaned == s.orphaned && !Chained(t.greens)
  {
    var u := Frees(s0, s, c);
    var v := Settled(s0, u, c);
    var w := AnotherNight(s0, v);
    assert BaseOf(v.procs[c].pc.head, v.procs[c].pc.baseline) <= v.main;
    t := StaleBreaks(s0, w, c);
  }

  lemma RiskBreaks(s: State) returns (t: State)
    requires LockHeld(s) && Placed(s) && AtRisk(s)
    ensures Quietly(s, t) && !Chained(t.greens)
  {
    var s0 := Afresh(s);
    assert RunOn(s0, []) == s0;
    var p :| Loose(s, p) || Stale(s, p);
    if Stale(s, p) {
      assert Stale(s0, p);
      t := StaleBreaks(s0, s0, p);
    } else {
      assert Loose(s0, p);
      t := LooseBreaks(s0, s0, p);
    }
  }

  // ---------------------------------------------------------------- a state not at risk never does

  ghost predicate NoneLoose(s: State) {
    forall c | c in s.procs :: s.procs[c].continuing && LivePc(s.procs[c].pc) ==> Attends(s, c)
  }

  ghost predicate NoneStale(s: State) {
    forall p | p in s.procs :: LiveBased(s.procs[p].pc) && s.greens != []
      ==> BaseOf(s.procs[p].pc.head, s.procs[p].pc.baseline) == s.greens[|s.greens| - 1].head
  }

  ghost predicate Calm(s: State) {
    && LockHeld(s) && Placed(s) && Chained(s.greens)
    && NoneLoose(s) && NoneStale(s)
  }

  lemma AdmitKeepsCalm(s: State, p: Pid, a: Action)
    requires p in s.procs && Calm(s)
    ensures NoneLoose(Admit(s, p, a)) && NoneStale(Admit(s, p, a)) && Chained(Admit(s, p, a).greens)
  {
  }

  /** With no child loose, at most one process can still move last-green from a baseline it has read. */
  lemma OneLiveBased(s: State, p: Pid, q: Pid)
    requires LockHeld(s) && NoneLoose(s)
    requires p in s.procs && q in s.procs && LiveBased(s.procs[p].pc) && LiveBased(s.procs[q].pc)
    ensures p == q
  {
  }

  lemma WorkKeepsAttention(s: State, p: Pid, a: Action)
    requires p in s.procs && Calm(s)
    ensures NoneLoose(Work(s, p, a))
  {
  }

  /** A write by the only live process extends the chain and leaves nobody behind. */
  lemma WriteKeepsFresh(s: State, p: Pid)
    requires p in s.procs && Calm(s) && s.procs[p].pc.Final? && s.procs[p].pc.status == Passed
    ensures var t := Work(s, p, WriteGreen(p)); NoneStale(t) && Chained(t.greens)
  {
    forall q | q in s.procs && q != p
      ensures !LiveBased(s.procs[q].pc)
    {
      if LiveBased(s.procs[q].pc) {
        OneLiveBased(s, p, q);
      }
    }
  }

  lemma WorkKeepsFresh(s: State, p: Pid, a: Action)
    requires p in s.procs && Calm(s)
    ensures NoneStale(Work(s, p, a)) && Chained(Work(s, p, a).greens)
  {
    if a.WriteGreen? && s.procs[p].pc.Final? && s.procs[p].pc.status == Passed {
      WriteKeepsFresh(s, p);
    }
  }

  lemma FamilyKeepsCalm(s: State, p: Pid, a: Action)
    requires p in s.procs && Calm(s) && !Family(s, p, a).orphaned
    ensures NoneLoose(Family(s, p, a)) && NoneStale(Family(s, p, a)) && Chained(Family(s, p, a).greens)
  {
  }

  lemma LaunchKeepsCalm(s: State, p: Pid, d: Date)
    requires Calm(s) && Unused(s, p)
    ensures Calm(s.(procs := s.procs[p := Proc(d, false, Started)]))
  {
  }

  /** Every quiet step keeps a state calm. */
  lemma StepKeepsCalm(s: State, a: Action)
    requires Calm(s) && !Step(s, a).orphaned
    ensures Calm(Step(s, a))
  {
    if a.Merge? {
    } else if a.Launch? {
      if Unused(s, a.p) {
        LaunchKeepsCalm(s, a.p, a.date);
      }
    } else if a.p in s.procs {
      if a.Reexec? || a.ChildEnded? || a.KillChild? || a.Crash? {
        FamilyKeepsLock(s, a.p, a);
        FamilyKeepsPlaces(s, a.p, a);
        FamilyKeepsCalm(s, a.p, a);
      } else if a.TakeLock? || a.Look? || a.Reserve? || a.Preflight? {
        AdmitKeepsLock(s, a.p, a);
        AdmitKeepsPlaces(s, a.p, a);
        AdmitKeepsCalm(s, a.p, a);
      } else {
        WorkKeepsLock(s, a.p, a);
        WorkKeepsPlaces(s, a.p, a);
        WorkKeepsAttention(s, a.p, a);
        WorkKeepsFresh(s, a.p, a);
      }
    }
  }

  /** A lost parent stays counted. */
  lemma StepCountsOn(s: State, a: Action)
    ensures s.orphaned ==> Step(s, a).orphaned
  {
  }

  lemma {:induction false} RunKeepsCalm(s0: State, actions: seq<Action>)
    requires Calm(s0) && !RunOn(s0, actions).orphaned
    ensures Calm(RunOn(s0, actions))
  {
    if actions != [] {
      var before := RunOn(s0, actions[..|actions| - 1]);
      StepCountsOn(before, actions[|actions| - 1]);
      RunKeepsCalm(s0, actions[..|actions| - 1]);
      StepKeepsCalm(before, actions[|actions| - 1]);
    }
  }

  // ---------------------------------------------------------------- the exact condition

  lemma NoRiskIsCalm(s: State)
    requires LockHeld(s) && Placed(s) && Chained(s.greens) && !AtRisk(s)
    ensures Calm(Afresh(s))
  {
    forall p | p in s.procs
      ensures s.procs[p].continuing && LivePc(s.procs[p].pc) ==> Attends(s, p)
      ensures !Stale(s, p)
    {
      assert !Loose(s, p) && !Stale(s, p);
    }
  }

  /** After any history whose green ranges are a chain so far, the chain can break without one more parent dying
      before its child if and only if a loose child is live or a live process holds an overtaken baseline. */
  lemma BreaksExactly(actions: seq<Action>)
    requires Chained(Run(actions).greens)
    ensures AtRisk(Run(actions)) <==> exists t :: Quietly(Run(actions), t) && !Chained(t.greens)
  {
    RunKeeps(actions);
    var s := Run(actions);
    if AtRisk(s) {
      var t := RiskBreaks(s);
    } else {
      forall t | Quietly(s, t)
        ensures Chained(t.greens)
      {
        NoRiskIsCalm(s);
        var more :| RunOn(Afresh(s), more) == t;
        RunKeepsCalm(Afresh(s), more);
      }
    }
  }
}
