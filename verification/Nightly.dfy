/**
 * The nightly protocol of `main_whole_run.py`: one lock, one receipt per date, one last-green
 * pointer, and any number of interleaved processes that may crash between any two steps.
 */
module Nightly {
  import opened Lists

  type Pid = nat
  type Date = nat
  type Commit = nat  // position on main, which only grows

  datatype Status = Running | Blocked | Passed | NotPassed | Incomplete
  datatype Receipt = Receipt(status: Status, head: Option<Commit>)

  /** Where a process stands in `run_nightly`. */
  datatype Pc =
    | Started                                                            // not yet locked
    | Locked                                                             // holds the lock, receipt not yet looked for
    | Vacant                                                             // saw no receipt
    | Reserved                                                           // wrote the running receipt
    | Ready                                                              // preflight passed, or a re-executed child
    | Headed(head: Commit)                                               // read main
    | Fetched(head: Commit, baseline: Option<Commit>)                    // and then last-green
    | Announced(head: Commit, baseline: Option<Commit>, handOver: bool)  // wrote the head into the receipt
    | Waiting(child: Pid, head: Commit)                                  // re-executed main's copy
    | TimedOut(head: Commit)                                             // killed its child
    | Ran(head: Commit, baseline: Option<Commit>, status: Status)        // the reached run ended
    | Final(head: Commit, baseline: Option<Commit>, status: Status)      // wrote the final receipt
    | Done(head: Commit)                                                 // moved last-green

  /** `continuing`: started with `MAIN_WHOLE_RUN_CONTINUE` equal to its own date. */
  datatype Proc = Proc(date: Date, continuing: bool, pc: Pc)

  /** One write of last-green, with the receipt on disk at that moment. */
  datatype Green = Green(base: Commit, head: Commit, date: Date, receipt: Receipt)

  /** The shared files, the live processes, and what has happened so far. */
  datatype State = State(
    procs: map<Pid, Proc>, lock: Option<Pid>, receipts: map<Date, Receipt>, green: Option<Commit>, main: Commit,
    reservations: seq<Date>, greens: seq<Green>, orphaned: bool)

  datatype Action =
    | Merge
    | Launch(p: Pid, date: Date)
    | TakeLock(p: Pid)
    | Look(p: Pid)
    | Reserve(p: Pid)
    | Preflight(p: Pid, allowed: bool)
    | Fetch(p: Pid)
    | ReadGreen(p: Pid)
    | Announce(p: Pid, handOver: bool)
    | Reexec(p: Pid, child: Pid, childDate: Date)
    | ChildEnded(p: Pid)
    | KillChild(p: Pid)
    | RunTests(p: Pid, report: Status, returncode: int)
    | WriteReceipt(p: Pid)
    | WriteGreen(p: Pid)
    | Leave(p: Pid)
    | Raise(p: Pid)
    | Crash(p: Pid)

  /** A process number nobody runs under or still waits for. */
  predicate Unused(s: State, p: Pid) {
    p !in s.procs && forall q | q in s.procs :: s.procs[q].pc.Waiting? ==> s.procs[q].pc.child != p
  }

  /** The process is gone; the system releases a lock it held. */
  function Gone(s: State, p: Pid): (t: State) {
    s.(procs := s.procs - {p}, lock := if s.lock == Some(p) then None else s.lock)
  }

  function Move(s: State, p: Pid, pc: Pc): (t: State)
    requires p in s.procs
  {
    s.(procs := s.procs[p := s.procs[p].(pc := pc)])
  }

  function PutReceipt(s: State, d: Date, r: Receipt): (t: State) {
    s.(receipts := s.receipts[d := r])
  }

  /** The head a process would name in its receipt. */
  function HeadOf(pc: Pc): (h: Option<Commit>) {
    match pc
    case Started => None
    case Locked => None
    case Vacant => None
    case Reserved => None
    case Ready => None
    case _ => Some(pc.head)
  }

  /** `baseline or origin/main^`. */
  function BaseOf(head: Commit, baseline: Option<Commit>): (b: Commit) {
    if baseline.Some? then baseline.value else if head > 0 then head - 1 else 0
  }

  /** The status a finished run leaves, from its report and its return code. */
  function Verdict(report: Status, returncode: int): (r: Status) {
    if report == Passed && returncode == 0 then Passed else report
  }

  /** A failing return code does not turn a passed report into anything else. */
  lemma VerdictIgnoresReturncode(report: Status, returncode: int)
    ensures Verdict(report, returncode) == Passed <==> report == Passed
  {
  }

  /** The steps inside the `try` that can end in its handler; waiting on a live child is not one. */
  predicate MayRaise(s: State, p: Pid) {
    p in s.procs && match s.procs[p].pc
      case Started => false
      case Locked => false
      case Waiting(c, _) => c !in s.procs
      case _ => true
  }

  /** The first steps of a process: lock, receipt, reservation, preflight. */
  function Admit(s: State, p: Pid, a: Action): (t: State)
    requires p in s.procs
  {
    var Proc(d, continuing, pc) := s.procs[p];
    match (a, pc)
    case (TakeLock(_), Started) => if s.lock.Some? then Gone(s, p) else Move(s, p, Locked).(lock := Some(p))
    case (Look(_), Locked) => if d in s.receipts then Gone(s, p) else Move(s, p, Vacant)
    case (Reserve(_), Vacant) =>
      PutReceipt(Move(s, p, Reserved), d, Receipt(Running, None)).(reservations := s.reservations + [d])
    case (Preflight(_, allowed), Reserved) =>
      if allowed then Move(s, p, Ready) else PutReceipt(Gone(s, p), d, Receipt(Blocked, None))
    case _ => s
  }

  /** From the fetch to the final receipt, last-green, and the ways out. */
  function Work(s: State, p: Pid, a: Action): (t: State)
    requires p in s.procs
  {
    var Proc(d, continuing, pc) := s.procs[p];
    match (a, pc)
    case (Fetch(_), Ready) => Move(s, p, Headed(s.main))
    case (ReadGreen(_), Headed(head)) => Move(s, p, Fetched(head, s.green))
    case (Announce(_, over), Fetched(head, baseline)) =>
      PutReceipt(Move(s, p, Announced(head, baseline, over && !continuing)), d, Receipt(Running, Some(head)))
    case (RunTests(_, report, returncode), Announced(head, baseline, false)) =>
      Move(s, p, Ran(head, baseline, Verdict(report, returncode)))
    case (WriteReceipt(_), Ran(head, baseline, status)) =>
      PutReceipt(Move(s, p, Final(head, baseline, status)), d, Receipt(status, Some(head)))
    case (WriteGreen(_), Final(head, baseline, Passed)) =>
      var r := if d in s.receipts then s.receipts[d] else Receipt(Running, None);
      Move(s, p, Done(head)).(green := Some(head), greens := s.greens + [Green(BaseOf(head, baseline), head, d, r)])
    case (Leave(_), Done(_)) => Gone(s, p)
    case (Leave(_), Final(_, _, status)) => if status == Passed then s else Gone(s, p)
    case (Raise(_), _) =>
      if MayRaise(s, p) then PutReceipt(Gone(s, p), d, Receipt(Incomplete, HeadOf(pc))) else s
    case _ => s
  }

  /** Starting, losing and killing the re-executed child. */
  function Family(s: State, p: Pid, a: Action): (t: State)
    requires p in s.procs
  {
    var Proc(d, continuing, pc) := s.procs[p];
    match (a, pc)
    case (Reexec(_, c, childDate), Announced(head, _, true)) =>
      if !Unused(s, c) then s
      else
        // a child that starts after midnight has another date and does not continue
        var child := if childDate == d then Proc(d, true, Ready) else Proc(childDate, false, Started);
        Move(s, p, Waiting(c, head)).(procs := Move(s, p, Waiting(c, head)).procs[c := child])
    case (ChildEnded(_), Waiting(c, _)) => if c in s.procs then s else Gone(s, p)
    case (KillChild(_), Waiting(c, head)) => Gone(Move(s, p, TimedOut(head)), c)
    case (Crash(_), Waiting(c, _)) => Gone(s, p).(orphaned := s.orphaned || c in s.procs)
    case (Crash(_), _) => Gone(s, p)
    case _ => s
  }

  /** One step of the system; an action whose moment has not come changes nothing. */
  function Step(s: State, a: Action): (t: State) {
    if a.Merge? then s.(main := s.main + 1)
    else if a.Launch? then
      if Unused(s, a.p) then s.(procs := s.procs[a.p := Proc(a.date, false, Started)]) else s
    else if a.p !in s.procs then s
    else if a.Reexec? || a.ChildEnded? || a.KillChild? || a.Crash? then Family(s, a.p, a)
    else if a.TakeLock? || a.Look? || a.Reserve? || a.Preflight? then Admit(s, a.p, a)
    else Work(s, a.p, a)
  }

  const INIT := State(map[], None, map[], None, 0, [], [], false)

  /** The state some interleaved actions lead to. */
  function RunOn(s0: State, actions: seq<Action>): (s: State) {
    if actions == [] then s0 else Step(RunOn(s0, actions[..|actions| - 1]), actions[|actions| - 1])
  }

  /** The state after a whole history of interleaved actions. */
  function Run(actions: seq<Action>): (s: State) {
    RunOn(INIT, actions)
  }

  // ---------------------------------------------------------------- invariants

  predicate Past(pc: Pc) {
    !pc.Started? && !pc.Locked? && !pc.Vacant?
  }

  /** Holds the lock, or must: past the start and not a continuing child. */
  predicate Parent(q: Proc) {
    !q.continuing && !q.pc.Started?
  }

  /** Has read a baseline and may still act on it. */
  predicate Based(pc: Pc) {
    pc.Fetched? || pc.Announced? || pc.Ran? || pc.Final?
  }

  /** Has read main and may still act on it. */
  predicate Acting(pc: Pc) {
    pc.Headed? || Based(pc)
  }

  /** Beyond the start, only the lock holder runs as a parent, a child never re-executes,
      and nobody waits for itself. */
  ghost predicate LockHeld(s: State) {
    && (forall p | p in s.procs :: Parent(s.procs[p]) ==> s.lock == Some(p))
    && (s.lock.Some? ==> s.lock.value in s.procs && Parent(s.procs[s.lock.value]))
    && (forall p | p in s.procs :: s.procs[p].continuing ==> ChildPc(s.procs[p].pc))
    && (forall p | p in s.procs :: !Waits(s.procs[p], p))
  }

  predicate ChildPc(pc: Pc) {
    Past(pc) && !pc.Reserved? && !pc.Waiting? && !pc.TimedOut? && (pc.Announced? ==> !pc.handOver)
  }

  /** A process past its reservation has a receipt, and one that saw none still finds none. */
  ghost predicate ReceiptsKept(s: State) {
    && (forall p | p in s.procs :: Past(s.procs[p].pc) ==> s.procs[p].date in s.receipts)
    && (forall p | p in s.procs :: s.procs[p].pc.Vacant? ==> s.procs[p].date !in s.receipts)
    && (forall i | 0 <= i < |s.reservations| :: s.reservations[i] in s.receipts)
    && Distinct(s.reservations)
  }

  /** Two live processes of one date past the reservation are a waiting parent and its own child. */
  ghost predicate OnePerDate(procs: map<Pid, Proc>) {
    && (forall p, c | p in procs && c in procs :: Related(procs[p], procs[c], c))
    && (forall p, c | p in procs && c in procs :: SameChild(procs[p], procs[c]) ==> p == c)
  }

  predicate SameChild(a: Proc, b: Proc) {
    a.continuing && b.continuing && a.date == b.date
  }

  predicate Waits(q: Proc, c: Pid) {
    q.pc.Waiting? && q.pc.child == c
  }

  /** A parent past the reservation and a continuing child have one date exactly when it waits for it. */
  predicate Related(parent: Proc, child: Proc, c: Pid) {
    !parent.continuing && child.continuing && Past(parent.pc) ==> (Waits(parent, c) <==> parent.date == child.date)
  }

  /** A process about to move last-green finds its own passed receipt on disk. */
  ghost predicate PassedOnDisk(s: State) {
    && (forall p | p in s.procs :: s.procs[p].pc.Final? && s.procs[p].date in s.receipts
                 ==> s.receipts[s.procs[p].date] == Receipt(s.procs[p].pc.status, Some(s.procs[p].pc.head)))
    && (forall i | 0 <= i < |s.greens| :: s.greens[i].receipt == Receipt(Passed, Some(s.greens[i].head)))
  }

  /** Last-green is the last head written, and no position or baseline lies beyond main. */
  ghost predicate Placed(s: State) {
    && s.green == (if s.greens == [] then None else Some(s.greens[|s.greens| - 1].head))
    && (s.green.Some? ==> s.green.value <= s.main)
    && (forall p | p in s.procs :: Acting(s.procs[p].pc) ==> s.procs[p].pc.head <= s.main)
    && (forall p | p in s.procs :: Based(s.procs[p].pc) ==> NotBeyond(s.procs[p].pc.baseline, s.main))
  }

  predicate NotBeyond(c: Option<Commit>, main: Commit) {
    c.Some? ==> c.value <= main
  }

  /** While no child was orphaned, every child's parent holds the lock and waits for it. */
  ghost predicate Attended(s: State) {
    forall c | c in s.procs :: s.procs[c].continuing
      ==> s.lock.Some? && s.lock.value in s.procs && Waits(s.procs[s.lock.value], c)
  }

  /** The baseline a process acts on is still last-green, and last-green is not beyond the head it read. */
  ghost predicate Current(s: State) {
    && (forall p | p in s.procs :: Based(s.procs[p].pc) ==> s.procs[p].pc.baseline == s.green)
    && (forall p | p in s.procs :: Acting(s.procs[p].pc) && s.green.Some? ==> s.green.value <= s.procs[p].pc.head)
  }

  ghost predicate Forward(greens: seq<Green>) {
    forall i | 0 <= i < |greens| :: greens[i].base <= greens[i].head
  }

  /** Each green run starts where the previous one ended. */
  ghost predicate Chained(greens: seq<Green>) {
    forall i | 0 < i < |greens| :: greens[i].base == greens[i - 1].head
  }

  ghost predicate Linked(greens: seq<Green>) {
    Chained(greens) && Forward(greens)
  }

  ghost predicate Safe(s: State) {
    && LockHeld(s) && ReceiptsKept(s) && OnePerDate(s.procs) && PassedOnDisk(s) && Placed(s)
    && (!s.orphaned ==> Attended(s) && Current(s) && Linked(s.greens))
  }

  // ---------------------------------------------------------------- every step keeps them

  lemma AdmitKeepsLock(s: State, p: Pid, a: Action)
    requires p in s.procs && LockHeld(s)
    ensures LockHeld(Admit(s, p, a))
  {
  }

  lemma WorkKeepsLock(s: State, p: Pid, a: Action)
    requires p in s.procs && LockHeld(s)
    ensures LockHeld(Work(s, p, a))
  {
  }

  lemma FamilyKeepsLock(s: State, p: Pid, a: Action)
    requires p in s.procs && LockHeld(s)
    ensures LockHeld(Family(s, p, a))
  {
  }

  lemma AdmitKeepsReceipts(s: State, p: Pid, a: Action)
    requires p in s.procs && LockHeld(s) && ReceiptsKept(s)
    ensures ReceiptsKept(Admit(s, p, a))
  {
  }

  lemma WorkKeepsReceipts(s: State, p: Pid, a: Action)
    requires p in s.procs && LockHeld(s) && ReceiptsKept(s)
    ensures ReceiptsKept(Work(s, p, a))
  {
  }

  lemma FamilyKeepsReceipts(s: State, p: Pid, a: Action)
    requires p in s.procs && LockHeld(s) && ReceiptsKept(s)
    ensures ReceiptsKept(Family(s, p, a))
  {
  }

  lemma MoveKeepsDates(procs: map<Pid, Proc>, p: Pid, pc: Pc)
    requires p in procs && OnePerDate(procs) && !pc.Waiting? && Past(pc)
    requires !procs[p].pc.Waiting?
    requires Past(procs[p].pc) || forall c | c in procs :: procs[c].continuing ==> procs[c].date != procs[p].date
    ensures OnePerDate(procs[p := procs[p].(pc := pc)])
  {
  }

  lemma GoneKeepsDates(procs: map<Pid, Proc>, p: Pid)
    requires OnePerDate(procs)
    ensures OnePerDate(procs - {p})
  {
  }

  lemma AdmitKeepsDates(s: State, p: Pid, a: Action)
    requires p in s.procs && LockHeld(s) && ReceiptsKept(s) && OnePerDate(s.procs)
    ensures OnePerDate(Admit(s, p, a).procs)
  {
    GoneKeepsDates(s.procs, p);
    var t := Admit(s, p, a);
    if p in t.procs && t.procs != s.procs && Past(t.procs[p].pc) {
      MoveKeepsDates(s.procs, p, t.procs[p].pc);
    }
  }

  lemma WorkKeepsDates(s: State, p: Pid, a: Action)
    requires p in s.procs && LockHeld(s) && ReceiptsKept(s) && OnePerDate(s.procs)
    ensures OnePerDate(Work(s, p, a).procs)
  {
    GoneKeepsDates(s.procs, p);
    var t := Work(s, p, a);
    if p in t.procs && t.procs != s.procs && Past(t.procs[p].pc) {
      MoveKeepsDates(s.procs, p, t.procs[p].pc);
    }
  }

  /** The child a parent starts is the only continuing process of its date. */
  lemma HandOverKeepsDates(procs: map<Pid, Proc>, p: Pid, c: Pid, head: Commit, child: Proc)
    requires p in procs && c !in procs && OnePerDate(procs)
    requires !procs[p].continuing && procs[p].pc.Announced?
    requires forall q | q in procs && q != p :: !Parent(procs[q])
    requires child.continuing ==> child.date == procs[p].date
    requires !child.continuing ==> child.pc == Started
    requires !child.continuing ==> forall q | q in procs :: procs[q].continuing ==> procs[q].date != procs[p].date
    ensures OnePerDate(procs[p := procs[p].(pc := Waiting(c, head))][c := child])
  {
    assert forall q | q in procs :: Related(procs[p], procs[q], q);
  }

  lemma FamilyKeepsDates(s: State, p: Pid, a: Action)
    requires p in s.procs && LockHeld(s) && ReceiptsKept(s) && OnePerDate(s.procs)
    ensures OnePerDate(Family(s, p, a).procs)
  {
    GoneKeepsDates(s.procs, p);
    var Proc(d, continuing, pc) := s.procs[p];
    if a.Reexec? && pc.Announced? && pc.handOver && Unused(s, a.child) {
      assert forall q | q in s.procs :: Related(s.procs[p], s.procs[q], q);
      var child := if a.childDate == d then Proc(d, true, Ready) else Proc(a.childDate, false, Started);
      HandOverKeepsDates(s.procs, p, a.child, pc.head, child);
    } else if a.KillChild? && pc.Waiting? && pc.child != p {
      KillKeepsDates(s.procs, p);
    }
  }

  lemma KillKeepsDates(procs: map<Pid, Proc>, p: Pid)
    requires p in procs && OnePerDate(procs) && procs[p].pc.Waiting? && procs[p].pc.child != p
    ensures OnePerDate(procs[p := procs[p].(pc := TimedOut(procs[p].pc.head))] - {procs[p].pc.child})
  {
  }

  /** No other process of its date is about to move last-green when a process writes the receipt. */
  lemma SoleWriter(s: State, p: Pid, q: Pid)
    requires LockHeld(s) && ReceiptsKept(s) && OnePerDate(s.procs)
    requires p in s.procs && q in s.procs && p != q && s.procs[q].pc.Final?
    requires !s.procs[p].pc.Started? && !s.procs[p].pc.Locked?
               && (s.procs[p].pc.Waiting? ==> s.procs[p].pc.child !in s.procs)
    ensures s.procs[p].date != s.procs[q].date
  {
    assert Related(s.procs[p], s.procs[q], q) && Related(s.procs[q], s.procs[p], p);
    assert SameChild(s.procs[p], s.procs[q]) ==> p == q;
  }

  /** No other process about to move last-green shares the date of a process that may write its receipt. */
  lemma SoleFinal(s: State, p: Pid)
    requires p in s.procs && LockHeld(s) && ReceiptsKept(s) && OnePerDate(s.procs)
    requires !s.procs[p].pc.Started? && !s.procs[p].pc.Locked?
    requires s.procs[p].pc.Waiting? ==> s.procs[p].pc.child !in s.procs
    ensures forall q | q in s.procs && q != p :: s.procs[q].pc.Final? ==> s.procs[q].date != s.procs[p].date
  {
    forall q | q in s.procs && q != p && s.procs[q].pc.Final?
      ensures s.procs[q].date != s.procs[p].date
    {
      SoleWriter(s, p, q);
    }
  }

  /** A receipt written by the only process of its date that counts leaves the others' receipts alone. */
  lemma PutKeepsPassed(s: State, p: Pid, r: Receipt, t: State)
    requires p in s.procs && PassedOnDisk(s)
    requires forall q | q in s.procs && q != p :: s.procs[q].pc.Final? ==> s.procs[q].date != s.procs[p].date
    requires t.receipts == s.receipts[s.procs[p].date := r] && t.greens == s.greens
    requires forall q | q in t.procs && q != p :: q in s.procs && t.procs[q] == s.procs[q]
    requires p in t.procs ==> t.procs[p].date == s.procs[p].date
    requires p in t.procs && t.procs[p].pc.Final? ==> r == Receipt(t.procs[p].pc.status, Some(t.procs[p].pc.head))
    ensures PassedOnDisk(t)
  {
  }

  /** The two receipts written before the work starts. */
  lemma ReserveKeepsPassed(s: State, p: Pid, a: Action)
    requires p in s.procs && LockHeld(s) && ReceiptsKept(s) && OnePerDate(s.procs) && PassedOnDisk(s)
    requires a.Reserve? || a.Preflight?
    ensures PassedOnDisk(Admit(s, p, a))
  {
    var t, d := Admit(s, p, a), s.procs[p].date;
    if t.receipts != s.receipts {
      SoleFinal(s, p);
      PutKeepsPassed(s, p, t.receipts[d], t);
    }
  }

  lemma AdmitKeepsPassed(s: State, p: Pid, a: Action)
    requires p in s.procs && LockHeld(s) && ReceiptsKept(s) && OnePerDate(s.procs) && PassedOnDisk(s)
    ensures PassedOnDisk(Admit(s, p, a))
  {
    if a.Reserve? || a.Preflight? {
      ReserveKeepsPassed(s, p, a);
    }
  }

  lemma RaiseKeepsPassed(s: State, p: Pid, a: Action)
    requires p in s.procs && LockHeld(s) && ReceiptsKept(s) && OnePerDate(s.procs) && PassedOnDisk(s) && a.Raise?
    ensures PassedOnDisk(Work(s, p, a))
  {
    var pc := s.procs[p].pc;
    if MayRaise(s, p) {
      SoleFinal(s, p);
      PutKeepsPassed(s, p, Receipt(Incomplete, HeadOf(pc)), Work(s, p, a));
    }
  }

  lemma AnnounceKeepsPassed(s: State, p: Pid, a: Action)
    requires p in s.procs && LockHeld(s) && ReceiptsKept(s) && OnePerDate(s.procs) && PassedOnDisk(s) && a.Announce?
    ensures PassedOnDisk(Work(s, p, a))
  {
    var pc := s.procs[p].pc;
    if pc.Fetched? {
      SoleFinal(s, p);
      PutKeepsPassed(s, p, Receipt(Running, Some(pc.head)), Work(s, p, a));
    }
  }

  lemma ReceiptKeepsPassed(s: State, p: Pid, a: Action)
    requires p in s.procs && LockHeld(s) && ReceiptsKept(s) && OnePerDate(s.procs) && PassedOnDisk(s) && a.WriteReceipt?
    ensures PassedOnDisk(Work(s, p, a))
  {
    var pc := s.procs[p].pc;
    if pc.Ran? {
      SoleFinal(s, p);
      PutKeepsPassed(s, p, Receipt(pc.status, Some(pc.head)), Work(s, p, a));
    }
  }

  /** A step that writes no receipt. */
  lemma OtherKeepsPassed(s: State, p: Pid, a: Action)
    requires p in s.procs && ReceiptsKept(s) && PassedOnDisk(s)
    requires !a.Raise? && !a.Announce? && !a.WriteReceipt?
    ensures PassedOnDisk(Work(s, p, a))
  {
  }

  lemma WorkKeepsPassed(s: State, p: Pid, a: Action)
    requires p in s.procs && LockHeld(s) && ReceiptsKept(s) && OnePerDate(s.procs) && PassedOnDisk(s)
    ensures PassedOnDisk(Work(s, p, a))
  {
    if a.Raise? {
      RaiseKeepsPassed(s, p, a);
    } else if a.Announce? {
      AnnounceKeepsPassed(s, p, a);
    } else if a.WriteReceipt? {
      ReceiptKeepsPassed(s, p, a);
    } else {
      OtherKeepsPassed(s, p, a);
    }
  }

  lemma FamilyKeepsPassed(s: State, p: Pid, a: Action)
    requires p in s.procs && PassedOnDisk(s)
    ensures PassedOnDisk(Family(s, p, a))
  {
  }

  lemma AdmitKeepsPlaces(s: State, p: Pid, a: Action)
    requires p in s.procs && Placed(s)
    ensures Placed(Admit(s, p, a))
  {
  }

  lemma WorkKeepsPlaces(s: State, p: Pid, a: Action)
    requires p in s.procs && Placed(s)
    ensures Placed(Work(s, p, a))
  {
  }

  lemma FamilyKeepsPlaces(s: State, p: Pid, a: Action)
    requires p in s.procs && Placed(s)
    ensures Placed(Family(s, p, a))
  {
  }

  lemma AdmitKeepsAttended(s: State, p: Pid, a: Action)
    requires p in s.procs && LockHeld(s) && Attended(s)
    ensures Attended(Admit(s, p, a))
  {
  }

  lemma WorkKeepsAttended(s: State, p: Pid, a: Action)
    requires p in s.procs && LockHeld(s) && Attended(s)
    ensures Attended(Work(s, p, a))
  {
  }

  /** With every child attended, at most one process acts on a head it has read. */
  lemma OneActing(s: State, p: Pid, q: Pid)
    requires LockHeld(s) && Attended(s)
    requires p in s.procs && q in s.procs && Acting(s.procs[p].pc) && Acting(s.procs[q].pc)
    ensures p == q
  {
  }

  lemma AdmitKeepsCurrent(s: State, p: Pid, a: Action)
    requires p in s.procs && Current(s) && Linked(s.greens)
    ensures Current(Admit(s, p, a)) && Linked(Admit(s, p, a).greens)
  {
  }

  lemma WorkKeepsCurrent(s: State, p: Pid, a: Action)
    requires p in s.procs && LockHeld(s) && Placed(s) && Attended(s) && Current(s) && Linked(s.greens)
    ensures Current(Work(s, p, a)) && Linked(Work(s, p, a).greens)
  {
    if a.WriteGreen? && s.procs[p].pc.Final? {
      forall q | q in s.procs && q != p
        ensures !Acting(s.procs[q].pc)
      {
        if Acting(s.procs[q].pc) {
          OneActing(s, p, q);
        }
      }
    }
  }

  lemma FamilyKeepsAttended(s: State, p: Pid, a: Action)
    requires p in s.procs && LockHeld(s) && Attended(s)
    ensures !Family(s, p, a).orphaned ==> Attended(Family(s, p, a))
  {
  }

  lemma FamilyKeepsCurrent(s: State, p: Pid, a: Action)
    requires p in s.procs && Current(s) && Linked(s.greens)
    ensures Current(Family(s, p, a)) && Linked(Family(s, p, a).greens)
  {
  }

  lemma MergeKeeps(s: State)
    requires Safe(s)
    ensures Safe(Step(s, Merge))
  {
  }

  lemma LaunchKeeps(s: State, p: Pid, d: Date)
    requires Safe(s)
    ensures Safe(Step(s, Launch(p, d)))
  {
    var t := Step(s, Launch(p, d));
    if Unused(s, p) {
      LaunchKeepsDates(s.procs, p, d);
      LaunchKeepsFiles(s, p, d);
    }
  }

  lemma LaunchKeepsFiles(s: State, p: Pid, d: Date)
    requires Unused(s, p)
    requires LockHeld(s) && ReceiptsKept(s) && PassedOnDisk(s) && Placed(s)
    ensures var t := s.(procs := s.procs[p := Proc(d, false, Started)]);
            LockHeld(t) && ReceiptsKept(t) && PassedOnDisk(t) && Placed(t)
            && (Attended(s) ==> Attended(t)) && (Current(s) ==> Current(t))
  {
  }

  lemma LaunchKeepsDates(procs: map<Pid, Proc>, p: Pid, d: Date)
    requires OnePerDate(procs) && p !in procs
    ensures OnePerDate(procs[p := Proc(d, false, Started)])
  {
  }

  lemma AdmitKeeps(s: State, p: Pid, a: Action) returns (t: State)
    requires Safe(s) && p in s.procs
    ensures t == Admit(s, p, a) && Safe(t)
  {
    t := Admit(s, p, a);
    AdmitKeepsLock(s, p, a);
    AdmitKeepsReceipts(s, p, a);
    AdmitKeepsDates(s, p, a);
    AdmitKeepsPassed(s, p, a);
    AdmitKeepsPlaces(s, p, a);
    AdmitKeepsChain(s, p, a);
  }

  lemma AdmitKeepsChain(s: State, p: Pid, a: Action)
    requires p in s.procs && LockHeld(s) && Placed(s)
    requires !s.orphaned ==> Attended(s) && Current(s) && Linked(s.greens)
    ensures var t := Admit(s, p, a); !t.orphaned ==> Attended(t) && Current(t) && Linked(t.greens)
  {
    if !s.orphaned {
      AdmitKeepsAttended(s, p, a);
      AdmitKeepsCurrent(s, p, a);
    }
  }

  lemma WorkKeeps(s: State, p: Pid, a: Action) returns (t: State)
    requires Safe(s) && p in s.procs
    ensures t == Work(s, p, a) && Safe(t)
  {
    t := Work(s, p, a);
    WorkKeepsLock(s, p, a);
    WorkKeepsReceipts(s, p, a);
    WorkKeepsDates(s, p, a);
    WorkKeepsPassed(s, p, a);
    WorkKeepsPlaces(s, p, a);
    WorkKeepsChain(s, p, a);
  }

  lemma WorkKeepsChain(s: State, p: Pid, a: Action)
    requires p in s.procs && LockHeld(s) && Placed(s)
    requires !s.orphaned ==> Attended(s) && Current(s) && Linked(s.greens)
    ensures var t := Work(s, p, a); !t.orphaned ==> Attended(t) && Current(t) && Linked(t.greens)
  {
    if !s.orphaned {
      WorkKeepsAttended(s, p, a);
      WorkKeepsCurrent(s, p, a);
    }
  }

  lemma FamilyKeeps(s: State, p: Pid, a: Action) returns (t: State)
    requires Safe(s) && p in s.procs
    ensures t == Family(s, p, a) && Safe(t)
  {
    t := Family(s, p, a);
    FamilyKeepsLock(s, p, a);
    FamilyKeepsReceipts(s, p, a);
    FamilyKeepsDates(s, p, a);
    FamilyKeepsPassed(s, p, a);
    FamilyKeepsPlaces(s, p, a);
    FamilyKeepsChain(s, p, a);
  }

  lemma FamilyKeepsChain(s: State, p: Pid, a: Action)
    requires p in s.procs && LockHeld(s) && Placed(s)
    requires !s.orphaned ==> Attended(s) && Current(s) && Linked(s.greens)
    ensures var t := Family(s, p, a); !t.orphaned ==> Attended(t) && Current(t) && Linked(t.greens)
  {
    if !s.orphaned {
      FamilyKeepsAttended(s, p, a);
      FamilyKeepsCurrent(s, p, a);
    }
  }

  /** Every action keeps every invariant. */
  lemma StepKeeps(s: State, a: Action)
    requires Safe(s)
    ensures Safe(Step(s, a))
  {
    if a.Merge? {
      MergeKeeps(s);
    } else if a.Launch? {
      LaunchKeeps(s, a.p, a.date);
    } else if a.p in s.procs {
      if a.Reexec? || a.ChildEnded? || a.KillChild? || a.Crash? {
        var t := FamilyKeeps(s, a.p, a);
      } else if a.TakeLock? || a.Look? || a.Reserve? || a.Preflight? {
        var t := AdmitKeeps(s, a.p, a);
      } else {
        var t := WorkKeeps(s, a.p, a);
      }
    }
  }

  /** Every history of interleaved processes, crashes included, stays safe. */
  lemma {:induction false} RunKeeps(actions: seq<Action>)
    ensures Safe(Run(actions))
  {
    if actions != [] {
      RunKeeps(actions[..|actions| - 1]);
      StepKeeps(Run(actions[..|actions| - 1]), actions[|actions| - 1]);
    }
  }

  // ---------------------------------------------------------------- what the protocol is for

  /** In every history each date is reserved at most once, whatever crashes; and of the live processes past the
      reservation, two of one date are a waiting parent and its continuing child. */
  lemma OneRunPerDate(actions: seq<Action>)
    ensures Distinct(Run(actions).reservations)
    ensures var s := Run(actions);
            forall p, q | p in s.procs && q in s.procs && p != q :: Past(s.procs[p].pc) && Past(s.procs[q].pc)
                && s.procs[p].date == s.procs[q].date
              ==> Waits(s.procs[p], q) || Waits(s.procs[q], p)
  {
    RunKeeps(actions);
    var s := Run(actions);
    forall p, q | p in s.procs && q in s.procs && p != q && Past(s.procs[p].pc) && Past(s.procs[q].pc)
        && s.procs[p].date == s.procs[q].date
      ensures Waits(s.procs[p], q) || Waits(s.procs[q], p)
    {
      assert Related(s.procs[p], s.procs[q], q) && Related(s.procs[q], s.procs[p], p);
      assert SameChild(s.procs[p], s.procs[q]) ==> p == q;
      assert Parent(s.procs[p]) ==> s.lock == Some(p);
    }
  }

  /** In every history last-green only ever moved while the receipt of that night said passed for that head. */
  lemma GreenOnlyAfterPassed(actions: seq<Action>, i: nat)
    requires i < |Run(actions).greens|
    ensures Run(actions).greens[i].receipt == Receipt(Passed, Some(Run(actions).greens[i].head))
  {
    RunKeeps(actions);
  }

  predicate Covers(g: Green, c: Commit) {
    g.base < c <= g.head
  }

  ghost predicate CoveredOnce(greens: seq<Green>, c: Commit) {
    exists i :: 0 <= i < |greens| && Covers(greens[i], c)
        && (forall k | 0 <= k < |greens| :: Covers(greens[k], c) ==> k == i)
  }

  /** The first range that reaches a commit. */
  lemma FirstReach(greens: seq<Green>, c: Commit) returns (i: nat)
    requires Chained(greens) && |greens| > 0 && greens[0].base < c <= greens[|greens| - 1].head
    ensures i < |greens| && Covers(greens[i], c) && forall k | 0 <= k < i :: greens[k].head < c
  {
    i := 0;
    while greens[i].head < c
      invariant i < |greens| && greens[i].base < c
      invariant forall k | 0 <= k < i :: greens[k].head < c
      decreases |greens| - i
    {
      i := i + 1;
    }
  }

  /** Later ranges all start at or after it. */
  lemma {:induction false} LaterStart(greens: seq<Green>, c: Commit, i: nat, k: nat)
    requires Chained(greens) && Forward(greens) && i < k < |greens| && c <= greens[i].head
    ensures c <= greens[k].base
  {
    if k > i + 1 {
      LaterStart(greens, c, i, k - 1);
    }
  }

  /** A chain that reaches a commit covers it with exactly one range. */
  lemma ChainCovers(greens: seq<Green>, c: Commit)
    requires Chained(greens) && Forward(greens) && |greens| > 0
    requires greens[0].base < c <= greens[|greens| - 1].head
    ensures CoveredOnce(greens, c)
  {
    var i := FirstReach(greens, c);
    forall k | 0 <= k < |greens| && Covers(greens[k], c)
      ensures k == i
    {
      if k > i {
        LaterStart(greens, c, i, k);
      }
    }
  }

  /** While no parent died before its re-executed child, each green run starts at the previous green head, so
      every commit from the first base to last-green was tested in exactly one green range. */
  lemma GreenRangesLeaveNoGap(actions: seq<Action>, c: Commit)
    requires !Run(actions).orphaned
    ensures Chained(Run(actions).greens)
    ensures var s := Run(actions);
            s.greens != [] && s.green.Some? && s.greens[0].base < c <= s.green.value ==> CoveredOnce(s.greens, c)
  {
    RunKeeps(actions);
    var s := Run(actions);
    Reaches(s, c);
  }

  lemma Reaches(s: State, c: Commit)
    requires Placed(s) && Linked(s.greens)
    ensures s.greens != [] && s.green.Some? && s.greens[0].base < c <= s.green.value ==> CoveredOnce(s.greens, c)
  {
    if s.greens != [] && s.green.Some? && s.greens[0].base < c <= s.green.value {
      ChainCovers(s.greens, c);
    }
  }

  ghost predicate From(s0: State, s: State) {
    exists history :: RunOn(s0, history) == s
  }

  ghost predicate Reachable(s: State) {
    From(INIT, s)
  }

  /** Two steps in a row. */
  function Two(s: State, a: Action, b: Action): (t: State) {
    Step(Step(s, a), b)
  }

  lemma StepReaches(s0: State, s: State, a: Action)
    requires From(s0, s)
    ensures From(s0, Step(s, a))
  {
    var history :| RunOn(s0, history) == s;
    assert (history + [a])[..|history|] == history;
    assert RunOn(s0, history + [a]) == Step(s, a);
  }

  lemma Advance(s0: State, s: State, a: Action, b: Action)
    requires From(s0, s)
    ensures From(s0, Two(s, a, b))
  {
    StepReaches(s0, s, a);
    StepReaches(s0, Step(s, a), b);
  }

  lemma Arrives(s0: State, s: State, p: Pid, d: Date)
    requires From(s0, s) && Unused(s, p) && s.lock == None && d !in s.receipts
    ensures From(s0, s.(main := s.main + 1, procs := s.procs[p := Proc(d, false, Vacant)], lock := Some(p)))
  {
    Advance(s0, s, Merge, Launch(p, d));
    var t := s.(main := s.main + 1, procs := s.procs[p := Proc(d, false, Started)]);
    assert Two(s, Merge, Launch(p, d)) == t;
    Advance(s0, t, TakeLock(p), Look(p));
    assert t.procs[p := Proc(d, false, Locked)][p := Proc(d, false, Vacant)] == s.procs[p := Proc(d, false, Vacant)];
  }

  lemma Prepares(s0: State, s: State, p: Pid, d: Date, over: bool)
    requires From(s0, s) && p in s.procs && s.procs[p] == Proc(d, false, Vacant)
    ensures From(s0, s.(procs := s.procs[p := Proc(d, false, Announced(s.main, s.green, over))],
                         reservations := s.reservations + [d],
                         receipts := s.receipts[d := Receipt(Running, Some(s.main))]))
  {
    Advance(s0, s, Reserve(p), Preflight(p, true));
    var t := s.(procs := s.procs[p := Proc(d, false, Ready)], reservations := s.reservations + [d],
                receipts := s.receipts[d := Receipt(Running, None)]);
    assert Two(s, Reserve(p), Preflight(p, true)).procs == t.procs;
    Informs(s0, t, p, Proc(d, false, Ready), over);
    assert t.procs[p := Proc(d, false, Announced(s.main, s.green, over))] ==
           s.procs[p := Proc(d, false, Announced(s.main, s.green, over))];
    assert t.receipts[d := Receipt(Running, Some(s.main))] == s.receipts[d := Receipt(Running, Some(s.main))];
  }

  lemma Declares(s0: State, s: State, p: Pid, q: Proc, head: Commit, baseline: Option<Commit>, over: bool)
    requires From(s0, s) && p in s.procs && s.procs[p] == q && q.pc == Fetched(head, baseline)
               && (over ==> !q.continuing)
    ensures From(s0, s.(procs := s.procs[p := q.(pc := Announced(head, baseline, over))],
                         receipts := s.receipts[q.date := Receipt(Running, Some(head))]))
  {
    StepReaches(s0, s, Announce(p, over));
    assert Step(s, Announce(p, over)).procs == s.procs[p := q.(pc := Announced(head, baseline, over))];
  }

  lemma Reads(s0: State, s: State, p: Pid, q: Proc)
    requires From(s0, s) && p in s.procs && s.procs[p] == q && q.pc == Ready
    ensures From(s0, s.(procs := s.procs[p := q.(pc := Fetched(s.main, s.green))]))
  {
    Advance(s0, s, Fetch(p), ReadGreen(p));
    assert Two(s, Fetch(p), ReadGreen(p)).procs == s.procs[p := q.(pc := Fetched(s.main, s.green))];
  }

  lemma Informs(s0: State, s: State, p: Pid, q: Proc, over: bool)
    requires From(s0, s) && p in s.procs && s.procs[p] == q && q.pc == Ready && (over ==> !q.continuing)
    ensures From(s0, s.(procs := s.procs[p := q.(pc := Announced(s.main, s.green, over))],
                         receipts := s.receipts[q.date := Receipt(Running, Some(s.main))]))
  {
    Reads(s0, s, p, q);
    var t := s.(procs := s.procs[p := q.(pc := Fetched(s.main, s.green))]);
    Declares(s0, t, p, t.procs[p], s.main, s.green, over);
    var last := q.(pc := Announced(s.main, s.green, over));
    assert t.procs[p := last] == s.procs[p := last];
  }

  lemma Runs(s0: State, s: State, p: Pid, q: Proc, head: Commit, baseline: Option<Commit>)
    requires From(s0, s) && p in s.procs && s.procs[p] == q && q.pc == Announced(head, baseline, false)
    ensures From(s0, s.(procs := s.procs[p := q.(pc := Ran(head, baseline, Passed))]))
  {
    StepReaches(s0, s, RunTests(p, Passed, 0));
    assert Step(s, RunTests(p, Passed, 0)).procs == s.procs[p := q.(pc := Ran(head, baseline, Passed))];
  }

  lemma Succeeds(s0: State, s: State, p: Pid, q: Proc, head: Commit, baseline: Option<Commit>)
    requires From(s0, s) && p in s.procs && s.procs[p] == q && q.pc == Announced(head, baseline, false)
    ensures From(s0, s.(procs := s.procs[p := q.(pc := Final(head, baseline, Passed))],
                         receipts := s.receipts[q.date := Receipt(Passed, Some(head))]))
  {
    Runs(s0, s, p, q, head, baseline);
    var t := s.(procs := s.procs[p := q.(pc := Ran(head, baseline, Passed))]);
    StepReaches(s0, t, WriteReceipt(p));
    assert Step(t, WriteReceipt(p)).procs == s.procs[p := q.(pc := Final(head, baseline, Passed))];
  }

  lemma Settles(s0: State, s: State, p: Pid, q: Proc, head: Commit, baseline: Option<Commit>) returns (t: State)
    requires From(s0, s) && p in s.procs && s.procs[p] == q && q.pc == Final(head, baseline, Passed)
    ensures From(s0, t) && t.procs == s.procs[p := q.(pc := Done(head))] && t.orphaned == s.orphaned
              && t.green == Some(head)
    ensures |t.greens| == |s.greens| + 1 && t.greens[..|s.greens|] == s.greens
    ensures t.greens[|s.greens|].base == BaseOf(head, baseline) && t.greens[|s.greens|].head == head
  {
    Advance(s0, s, WriteGreen(p), Merge);
    t := Two(s, WriteGreen(p), Merge);
  }

  lemma Finishes(s0: State, s: State, p: Pid, q: Proc, head: Commit, baseline: Option<Commit>) returns (t: State)
    requires From(s0, s) && p in s.procs && s.procs[p] == q && q.pc == Announced(head, baseline, false)
    ensures From(s0, t) && t.procs == s.procs[p := q.(pc := Done(head))] && t.orphaned == s.orphaned
              && t.green == Some(head)
    ensures |t.greens| == |s.greens| + 1 && t.greens[..|s.greens|] == s.greens
    ensures t.greens[|s.greens|].base == BaseOf(head, baseline) && t.greens[|s.greens|].head == head
  {
    Succeeds(s0, s, p, q, head, baseline);
    var u := s.(procs := s.procs[p := q.(pc := Final(head, baseline, Passed))],
                receipts := s.receipts[q.date := Receipt(Passed, Some(head))]);
    t := Settles(s0, u, p, u.procs[p], head, baseline);
    assert u.procs[p := q.(pc := Done(head))] == s.procs[p := q.(pc := Done(head))];
  }

  /** The last three steps of a run whose report says passed, with the return code it ended with. */
  function Concluded(s: State, p: Pid, returncode: int): (t: State) {
    Step(Step(Step(s, RunTests(p, Passed, returncode)), WriteReceipt(p)), WriteGreen(p))
  }

  /** Whatever its return code, such a run leaves a passed receipt and moves last-green to its head. */
  lemma GreenDespiteReturncode(s: State, p: Pid, returncode: int)
    requires p in s.procs && s.procs[p].pc.Announced? && !s.procs[p].pc.handOver
    ensures var t, q := Concluded(s, p, returncode), s.procs[p];
            && t.green == Some(q.pc.head)
            && q.date in t.receipts && t.receipts[q.date] == Receipt(Passed, Some(q.pc.head))
  {
    var t := Step(s, RunTests(p, Passed, returncode));
    assert t.procs[p] == s.procs[p].(pc := Ran(s.procs[p].pc.head, s.procs[p].pc.baseline, Passed));
  }

  /** So a run that timed out, which counts as return code 124, can be what moves last-green. */
  lemma TimeoutTurnsGreen() returns (s: State)
    ensures Reachable(s) && s.green == None && 1 in s.procs && s.procs[1].date == 1
    ensures var t := Concluded(s, 1, 124);
            Reachable(t) && t.green == Some(1) && 1 in t.receipts && t.receipts[1] == Receipt(Passed, Some(1))
  {
    assert RunOn(INIT, []) == INIT;
    Arrives(INIT, INIT, 1, 1);
    var u := INIT.(main := 1, procs := map[1 := Proc(1, false, Vacant)], lock := Some(1));
    Prepares(INIT, u, 1, 1, false);
    s := u.(procs := u.procs[1 := Proc(1, false, Announced(1, None, false))], reservations := [1],
            receipts := map[1 := Receipt(Running, Some(1))]);
    StepReaches(INIT, s, RunTests(1, Passed, 124));
    Advance(INIT, Step(s, RunTests(1, Passed, 124)), WriteReceipt(1), WriteGreen(1));
    GreenDespiteReturncode(s, 1, 124);
  }

  lemma HandsOver(s: State, d: Date)
    requires Reachable(s) && s.procs == map[1 := Proc(d, false, Announced(1, None, true))]
    ensures Reachable(s.(procs := map[1 := Proc(d, false, Waiting(2, 1)), 2 := Proc(d, true, Ready)]))
  {
    StepReaches(INIT, s, Reexec(1, 2, d));
    assert Step(s, Reexec(1, 2, d)).procs == map[1 := Proc(d, false, Waiting(2, 1)), 2 := Proc(d, true, Ready)];
  }

  lemma Abandons(s: State, d: Date)
    requires Reachable(s) && s.procs == map[1 := Proc(d, false, Announced(1, None, true))] && s.lock == Some(1)
    ensures Reachable(s.(procs := map[2 := Proc(d, true, Ready)], lock := None, orphaned := true))
  {
    HandsOver(s, d);
    var t := s.(procs := map[1 := Proc(d, false, Waiting(2, 1)), 2 := Proc(d, true, Ready)]);
    StepReaches(INIT, t, Crash(1));
    assert t.procs - {1} == map[2 := Proc(d, true, Ready)];
  }

  /** The state in which a parent has died and its child lives on. */
  const ORPHAN := State(
    map[2 := Proc(1, true, Ready)], None, map[1 := Receipt(Running, Some(1))], None, 1, [1], [], true)

  lemma OrphanArises()
    ensures Reachable(ORPHAN)
  {
    assert RunOn(INIT, []) == INIT;
    Arrives(INIT, INIT, 1, 1);
    var s1 := INIT.(main := 1, procs := map[1 := Proc(1, false, Vacant)], lock := Some(1));
    Prepares(INIT, s1, 1, 1, true);
    var s2 := s1.(procs := map[1 := Proc(1, false, Announced(1, None, true))], reservations := [1],
                  receipts := map[1 := Receipt(Running, Some(1))]);
    assert s2.procs == s1.procs[1 := Proc(1, false, Announced(1, None, true))];
    Abandons(s2, 1);
  }

  /** Another night is prepared while the orphan is about to test its own, older head. */
  lemma NightsOverlap() returns (s: State)
    ensures Reachable(s) && s.greens == [] && s.orphaned
    ensures 2 in s.procs && s.procs[2].pc == Announced(1, None, false)
    ensures 3 in s.procs && s.procs[3].pc == Announced(2, None, false)
  {
    OrphanArises();
    Informs(INIT, ORPHAN, 2, Proc(1, true, Ready), false);
    var procs := map[2 := Proc(1, true, Announced(1, None, false))];
    var s4 := ORPHAN.(procs := procs);
    assert ORPHAN.procs[2 := Proc(1, true, Announced(1, None, false))] == procs;
    assert ORPHAN.receipts[1 := Receipt(Running, Some(1))] == ORPHAN.receipts;
    Arrives(INIT, s4, 3, 2);
    var s5 := s4.(main := 2, procs := procs[3 := Proc(2, false, Vacant)], lock := Some(3));
    Prepares(INIT, s5, 3, 2, false);
    s := s5.(procs := s5.procs[3 := Proc(2, false, Announced(2, None, false))],
             reservations := s5.reservations + [2], receipts := s5.receipts[2 := Receipt(Running, Some(2))]);
  }

  /** Without the proviso the chain can break: the later night passes on its newer head, and then the orphan,
      still at its old baseline, moves last-green back from 2 to 1. */
  lemma OrphanBreaksTheChain() returns (s: State)
    ensures Reachable(s) && s.orphaned && !Chained(s.greens)
    ensures s.green == Some(1) && |s.greens| == 2 && s.greens[0].head == 2
  {
    var s0 := NightsOverlap();
    var s1 := Finishes(INIT, s0, 3, s0.procs[3], 2, None);
    s := Finishes(INIT, s1, 2, s1.procs[2], 1, None);
    assert s.greens[..1] == s1.greens;
    assert s.greens[0].head == 2 && s.greens[1].base == 0;
  }
}
