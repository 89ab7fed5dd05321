/** The bounded side-by-side runner `_run_parallel`: every executable once, never too many at a time. */
module ParallelRun {
  import opened Lists

  const GB_PER_PARALLEL_STEP := 3.0

  /** What the environment does with one executable: refuse to spawn it, or end it after some polls. */
  datatype Fate = SpawnFails | Exits(code: int, polls: nat)

  /** A process that was started: its position in the flattened list and the polls it still lives. */
  datatype Proc = Proc(k: nat, polls: nat)

  /** One attempt to start executable `k` beside `concurrent` running ones; `reading` numbers the memory reading taken
      for it. */
  datatype Attempt = Attempt(k: nat, concurrent: nat, reading: Option<nat>)

  /** The flattened executables, `owner[k]` being the job of executable `k`, and the limits. */
  datatype Config = Config(jobs: nat, owner: seq<nat>, fates: seq<Fate>, limit: nat, reserve: real)

  /** The runner between two steps: what is started, what runs, the jobs' codes, the readings taken, the attempts. */
  datatype Run = Run(next: nat, running: seq<Proc>, codes: seq<int>, taken: nat, log: seq<Attempt>)

  predicate Good(f: Fate) {
    f.Exits? && f.code == 0
  }

  ghost predicate Proper(c: Config) {
    c.limit >= 1 && |c.fates| == |c.owner| && forall k :: 0 <= k < |c.owner| ==> c.owner[k] < c.jobs
  }

  ghost predicate WellFormed(c: Config, st: Run) {
    && Proper(c) && st.next <= |c.owner| && |st.codes| == c.jobs && Known(c.owner, c.fates, st.running, c.jobs)
  }

  // ---------------------------------------------------------------- one round, as a function of fates and readings

  predicate Room(c: Config, st: Run) {
    st.next < |c.owner| && |st.running| < c.limit
  }

  /** Something runs already and a reserve is set: the next start needs a memory reading. */
  predicate MustRead(c: Config, st: Run) {
    st.running != [] && c.reserve > 0.0
  }

  predicate Enough(c: Config, reading: Option<real>) {
    reading.Some? && reading.value >= c.reserve + GB_PER_PARALLEL_STEP
  }

  /** The next executable is attempted. */
  function Started(c: Config, st: Run): (t: Run)
    requires WellFormed(c, st) && Room(c, st)
    ensures WellFormed(c, t) && t.next == st.next + 1
  {
    var read := MustRead(c, st);
    var log := st.log + [Attempt(st.next, |st.running|, if read then Some(st.taken) else None)];
    var taken := if read then st.taken + 1 else st.taken;
    match c.fates[st.next]
    case SpawnFails =>
      var job := c.owner[st.next];
      Run(st.next + 1, st.running, st.codes[job := if st.codes[job] != 0 then st.codes[job] else 1], taken, log)
    case Exits(_, polls) => Run(st.next + 1, st.running + [Proc(st.next, polls)], st.codes, taken, log)
  }

  /** Fill the free places; a reading that is too low ends the filling. */
  function StartPhase(c: Config, st: Run, free: nat -> Option<real>): (t: Run)
    requires WellFormed(c, st)
    ensures WellFormed(c, t) && st.next <= t.next
    decreases |c.owner| - st.next
  {
    if !Room(c, st) then st
    else if MustRead(c, st) && !Enough(c, free(st.taken)) then st.(taken := st.taken + 1)
    else StartPhase(c, Started(c, st), free)
  }

  /** Poll every process once: an ended one leaves and settles its job's code. */
  function PollPhase(c: Config, st: Run): (t: Run)
    requires WellFormed(c, st)
    ensures WellFormed(c, t)
  {
    PolledShrinks(st.running, |st.running|, c.owner, c.fates, c.jobs);
    st.(running := Polled(st.running, |st.running|),
        codes := CodesUpTo(st.codes, c.owner, c.fates, st.running, |st.running|))
  }

  function Round(c: Config, st: Run, free: nat -> Option<real>): (t: Run)
    requires WellFormed(c, st)
    ensures WellFormed(c, t)
  {
    PollPhase(c, StartPhase(c, st, free))
  }

  function Initial(c: Config): (st: Run) {
    Run(0, [], seq(c.jobs, j => 0), 0, [])
  }

  predicate Over(c: Config, st: Run) {
    st.next == |c.owner| && st.running == []
  }

  /** The rounds of a whole run: each the one the fates and readings make of the one before, up to the end. */
  ghost predicate Traced(c: Config, free: nat -> Option<real>, rounds: seq<Run>) {
    && rounds != [] && rounds[0] == Initial(c)
    && (forall k :: 0 <= k < |rounds| ==> WellFormed(c, rounds[k]))
    && (forall k :: 0 <= k < |rounds| - 1 ==> Follows(c, free, rounds[k], rounds[k + 1]))
  }

  ghost predicate Follows(c: Config, free: nat -> Option<real>, st: Run, t: Run) {
    WellFormed(c, st) && !Over(c, st) && t == Round(c, st, free)
  }

  // ---------------------------------------------------------------- processes and codes

  /** Polls the running processes may still answer. */
  function Life(running: seq<Proc>): (n: nat) {
    if running == [] then 0 else 1 + running[0].polls + Life(running[1..])
  }

  lemma {:induction false} LifeConcat(a: seq<Proc>, b: seq<Proc>)
    ensures Life(a + b) == Life(a) + Life(b)
  {
    if a == [] {
      assert a + b == b;
    } else {
      assert (a + b)[1..] == a[1..] + b;
      LifeConcat(a[1..], b);
    }
  }

  lemma LifeNext(running: seq<Proc>, i: nat)
    requires i < |running|
    ensures Life(running[..i + 1]) == Life(running[..i]) + 1 + running[i].polls
  {
    assert running[..i + 1] == running[..i] + [running[i]];
    LifeConcat(running[..i], [running[i]]);
  }

  ghost predicate Live(running: seq<Proc>, k: nat) {
    exists i :: 0 <= i < |running| && running[i].k == k
  }

  /** Processes are listed in the order they were started, each below `next`. */
  ghost predicate InOrder(running: seq<Proc>, next: nat) {
    && (forall i :: 0 <= i < |running| ==> running[i].k < next)
    && forall i, j :: 0 <= i < j < |running| ==> running[i].k < running[j].k
  }

  /** Each job's code is 0 exactly while everything of it that has settled spawned and exited 0. */
  ghost predicate CodesMatch(codes: seq<int>, owner: seq<nat>, fates: seq<Fate>, settled: iset<nat>)
    requires |fates| == |owner|
  {
    forall j :: 0 <= j < |codes| ==>
      (codes[j] == 0 <==> forall k: nat :: k < |owner| && k in settled && owner[k] == j ==> Good(fates[k]))
  }

  /** Everything started below `next` that is no longer running. */
  ghost function Settled(running: seq<Proc>, next: nat): iset<nat> {
    iset k: nat | k < next && !Live(running, k)
  }

  /** Settling executable `k` with fate `f` updates exactly its job's code. */
  lemma SettleOne(codes: seq<int>, owner: seq<nat>, fates: seq<Fate>, before: iset<nat>, k: nat, code: int)
    requires |fates| == |owner| && k < |owner| && owner[k] < |codes| && CodesMatch(codes, owner, fates, before)
    requires code == 0 <==> codes[owner[k]] == 0 && Good(fates[k])
    ensures CodesMatch(codes[owner[k] := code], owner, fates, before + iset{k})
  {
    var after := codes[owner[k] := code];
    forall j | 0 <= j < |after|
      ensures after[j] == 0 <==>
              forall i: nat :: i < |owner| && i in before + iset{k} && owner[i] == j ==> Good(fates[i])
    {
      assert codes[j] == 0 <==> forall i: nat :: i < |owner| && i in before && owner[i] == j ==> Good(fates[i]);
      if j == owner[k] {
        assert k in before + iset{k};
      }
    }
  }

  lemma SettledAfterFailure(running: seq<Proc>, next: nat)
    requires InOrder(running, next)
    ensures Settled(running, next + 1) == Settled(running, next) + iset{next}
  {
  }

  lemma SettledAfterStart(running: seq<Proc>, next: nat, polls: nat)
    requires InOrder(running, next)
    ensures Settled(running + [Proc(next, polls)], next + 1) == Settled(running, next)
    ensures InOrder(running + [Proc(next, polls)], next + 1)
  {
    var after := running + [Proc(next, polls)];
    forall k: nat
      ensures k < next + 1 && !Live(after, k) <==> k < next && !Live(running, k)
    {
      assert after[|running|].k == next;
      if Live(running, k) {
        var i :| 0 <= i < |running| && running[i].k == k;
        assert after[i].k == k;
      }
    }
  }

  /** The processes among the first `i` that survive one poll. */
  function Polled(running: seq<Proc>, i: nat): (left: seq<Proc>)
    requires i <= |running|
  {
    if i == 0 then []
    else if running[i - 1].polls > 0 then Polled(running, i - 1) + [Polling(running[i - 1])]
    else Polled(running, i - 1)
  }

  /** A process that has answered one more poll. */
  function Polling(p: Proc): (q: Proc)
    requires p.polls > 0
  {
    Proc(p.k, p.polls - 1)
  }

  /** Exactly the processes that were still running survive. */
  lemma {:induction false} PolledExactly(running: seq<Proc>, i: nat)
    requires i <= |running|
    ensures forall p :: p in Polled(running, i) <==>
              exists j :: 0 <= j < i && running[j].polls > 0 && p == Polling(running[j])
  {
    if i > 0 {
      PolledExactly(running, i - 1);
    }
  }

  lemma {:induction false} PolledShrinks(running: seq<Proc>, i: nat, owner: seq<nat>, fates: seq<Fate>, jobs: nat)
    requires i <= |running| && Known(owner, fates, running, jobs)
    ensures |Polled(running, i)| <= i && Life(Polled(running, i)) + i <= Life(running[..i])
    ensures Known(owner, fates, Polled(running, i), jobs)
  {
    if i > 0 {
      PolledShrinks(running, i - 1, owner, fates, jobs);
      LifeNext(running, i - 1);
      var p := running[i - 1];
      assert KnownProc(owner, fates, p, jobs);
      LifeConcat(Polled(running, i - 1), [Proc(p.k, if p.polls > 0 then p.polls - 1 else 0)]);
    }
  }

  /** Still in the running list after `i` of its processes have been polled. */
  ghost function Alive(running: seq<Proc>, i: nat): seq<Proc>
    requires i <= |running|
  {
    Polled(running, i) + running[i..]
  }

  /** A job's code after the process at `k` ended. */
  function Updated(codes: seq<int>, job: nat, code: int): (c: int)
    requires job < |codes|
  {
    if code != 0 && codes[job] == 0 then code else codes[job]
  }

  lemma PollStep(codes: seq<int>, owner: seq<nat>, fates: seq<Fate>, running: seq<Proc>, i: nat, next: nat)
    requires |fates| == |owner| && next <= |owner| && i < |running| && running[i].k < next
    requires InOrder(Alive(running, i), next) && CodesMatch(codes, owner, fates, Settled(Alive(running, i), next))
    requires owner[running[i].k] < |codes| && fates[running[i].k].Exits?
    ensures InOrder(Alive(running, i + 1), next)
    ensures var p := running[i];
            if p.polls > 0 then CodesMatch(codes, owner, fates, Settled(Alive(running, i + 1), next))
            else
              var job := owner[p.k];
              CodesMatch(codes[job := Updated(codes, job, fates[p.k].code)], owner, fates,
                  Settled(Alive(running, i + 1), next))
  {
    var p, left, rest := running[i], Polled(running, i), running[i + 1..];
    assert running[i..] == [p] + rest;
    if p.polls > 0 {
      StillRunning(left, p, rest, next);
    } else {
      PollSettles(codes, owner, fates, left, p, rest, next, Updated(codes, owner[p.k], fates[p.k].code));
    }
  }

  /** The jobs' codes after `i` of the running processes have been polled. */
  function CodesUpTo(codes: seq<int>, owner: seq<nat>, fates: seq<Fate>, running: seq<Proc>, i: nat): (r: seq<int>)
    requires i <= |running| && |fates| == |owner| && Known(owner, fates, running, |codes|)
    ensures |r| == |codes|
  {
    if i == 0 then codes
    else
      var before, p := CodesUpTo(codes, owner, fates, running, i - 1), running[i - 1];
      if p.polls > 0 then before else before[owner[p.k] := Updated(before, owner[p.k], fates[p.k].code)]
  }

  /** Every running process is one that spawned, for a known job. */
  ghost predicate Known(owner: seq<nat>, fates: seq<Fate>, running: seq<Proc>, jobs: nat) {
    |fates| == |owner| && forall i :: 0 <= i < |running| ==> KnownProc(owner, fates, running[i], jobs)
  }

  ghost predicate KnownProc(owner: seq<nat>, fates: seq<Fate>, p: Proc, jobs: nat) {
    |fates| == |owner| && p.k < |owner| && owner[p.k] < jobs && fates[p.k].Exits?
  }

  lemma {:induction false} PollKeeps(codes: seq<int>, owner: seq<nat>, fates: seq<Fate>, running: seq<Proc>, i: nat,
                                     next: nat) returns (after: seq<int>)
    requires i <= |running| && next <= |owner| && Known(owner, fates, running, |codes|)
    requires InOrder(running, next) && CodesMatch(codes, owner, fates, Settled(running, next))
    ensures after == CodesUpTo(codes, owner, fates, running, i) && InOrder(Alive(running, i), next)
    ensures CodesMatch(after, owner, fates, Settled(Alive(running, i), next))
  {
    if i == 0 {
      assert Alive(running, 0) == running;
      after := codes;
    } else {
      var before := PollKeeps(codes, owner, fates, running, i - 1, next);
      var p := running[i - 1];
      assert KnownProc(owner, fates, p, |codes|);
      PollStep(before, owner, fates, running, i - 1, next);
      after := if p.polls > 0 then before else before[owner[p.k] := Updated(before, owner[p.k], fates[p.k].code)];
    }
  }

  lemma StillRunning(left: seq<Proc>, p: Proc, rest: seq<Proc>, next: nat)
    requires p.polls > 0 && InOrder(left + ([p] + rest), next)
    ensures var after := (left + [Proc(p.k, p.polls - 1)]) + rest;
            InOrder(after, next) && Settled(after, next) == Settled(left + ([p] + rest), next)
  {
    var before, after := left + ([p] + rest), (left + [Proc(p.k, p.polls - 1)]) + rest;
    assert |before| == |after| && forall i :: 0 <= i < |after| ==> after[i].k == before[i].k;
  }

  lemma Leaves(left: seq<Proc>, p: Proc, rest: seq<Proc>, next: nat)
    requires InOrder(left + ([p] + rest), next)
    ensures InOrder(left + rest, next)
    ensures Settled(left + rest, next) == Settled(left + ([p] + rest), next) + iset{p.k}
  {
    var before, after := left + ([p] + rest), left + rest;
    assert before[|left|] == p;
    forall i | 0 <= i < |after|
      ensures after[i] == before[if i < |left| then i else i + 1] && after[i].k != p.k
    {
    }
    forall k: nat
      ensures Live(after, k) <==> Live(before, k) && k != p.k
    {
      if Live(before, k) && k != p.k {
        var i :| 0 <= i < |before| && before[i].k == k;
        assert after[if i < |left| then i else i - 1].k == k;
      }
    }
  }

  lemma PollSettles(codes: seq<int>, owner: seq<nat>, fates: seq<Fate>, left: seq<Proc>, p: Proc, rest: seq<Proc>,
                    next: nat, code: int)
    requires |fates| == |owner| && next <= |owner| && InOrder(left + ([p] + rest), next) && p.k < next
    requires owner[p.k] < |codes| && CodesMatch(codes, owner, fates, Settled(left + ([p] + rest), next))
    requires code == 0 <==> codes[owner[p.k]] == 0 && Good(fates[p.k])
    ensures InOrder(left + rest, next)
    ensures CodesMatch(codes[owner[p.k] := code], owner, fates, Settled(left + rest, next))
  {
    SettleOne(codes, owner, fates, Settled(left + ([p] + rest), next), p.k, code);
    Leaves(left, p, rest, next);
  }

  // ---------------------------------------------------------------- what every round keeps

  /** Each attempt so far: the executables in order, each below the limit, and beside a running one only after a
      reading of its own with room for one more. */
  ghost predicate LogOk(c: Config, free: nat -> Option<real>, st: Run) {
    && |st.log| == st.next
    && (forall i :: 0 <= i < |st.log| ==> AttemptOk(c, free, st.log[i], i, st.taken))
    && (forall i, j :: 0 <= i < j < |st.log| && st.log[i].reading.Some? && st.log[j].reading.Some? ==>
          st.log[i].reading.value < st.log[j].reading.value)
  }

  ghost predicate AttemptOk(c: Config, free: nat -> Option<real>, a: Attempt, i: nat, taken: nat) {
    && a.k == i && a.concurrent < c.limit && (a.reading.Some? ==> a.reading.value < taken)
    && (a.concurrent > 0 && c.reserve > 0.0 ==> a.reading.Some? && Enough(c, free(a.reading.value)))
  }

  ghost predicate CodesOk(c: Config, st: Run)
    requires Proper(c)
  {
    InOrder(st.running, st.next) && CodesMatch(st.codes, c.owner, c.fates, Settled(st.running, st.next))
  }

  ghost predicate Kept(c: Config, free: nat -> Option<real>, st: Run) {
    WellFormed(c, st) && CodesOk(c, st) && LogOk(c, free, st) && |st.running| <= c.limit
  }

  lemma StartedCodes(c: Config, st: Run)
    requires WellFormed(c, st) && Room(c, st) && CodesOk(c, st)
    ensures CodesOk(c, Started(c, st))
  {
    match c.fates[st.next]
    case SpawnFails =>
      var job := c.owner[st.next];
      var code := if st.codes[job] != 0 then st.codes[job] else 1;
      SettleOne(st.codes, c.owner, c.fates, Settled(st.running, st.next), st.next, code);
      SettledAfterFailure(st.running, st.next);
    case Exits(_, polls) =>
      SettledAfterStart(st.running, st.next, polls);
  }

  lemma StartedKept(c: Config, st: Run, free: nat -> Option<real>)
    requires Kept(c, free, st) && Room(c, st) && (MustRead(c, st) ==> Enough(c, free(st.taken)))
    ensures Kept(c, free, Started(c, st))
  {
    StartedCodes(c, st);
    StartedLog(c, st, free);
  }

  lemma StartedLog(c: Config, st: Run, free: nat -> Option<real>)
    requires WellFormed(c, st) && LogOk(c, free, st) && Room(c, st) && (MustRead(c, st) ==> Enough(c, free(st.taken)))
    ensures LogOk(c, free, Started(c, st))
  {
    var t := Started(c, st);
    assert t.log[..|st.log|] == st.log;
    forall i | 0 <= i < |t.log|
      ensures AttemptOk(c, free, t.log[i], i, t.taken)
    {
      assert i < |st.log| ==> t.log[i] == st.log[i] && AttemptOk(c, free, st.log[i], i, st.taken);
    }
    forall i, j | 0 <= i < j < |t.log| && t.log[i].reading.Some? && t.log[j].reading.Some?
      ensures t.log[i].reading.value < t.log[j].reading.value
    {
      assert t.log[i] == st.log[i] && AttemptOk(c, free, st.log[i], i, st.taken);
    }
  }

  /** Why filling stopped: nothing left, the limit reached, or a reading too low; never with nothing running. */
  ghost predicate StartedAll(c: Config, free: nat -> Option<real>, t: Run) {
    || t.next == |c.owner| || |t.running| == c.limit
    || (t.running != [] && c.reserve > 0.0 && t.taken > 0 && !Enough(c, free(t.taken - 1)))
  }

  lemma {:induction false} StartPhaseKept(c: Config, st: Run, free: nat -> Option<real>)
    requires Kept(c, free, st)
    ensures Kept(c, free, StartPhase(c, st, free)) && StartedAll(c, free, StartPhase(c, st, free))
    decreases |c.owner| - st.next
  {
    if Room(c, st) {
      if MustRead(c, st) && !Enough(c, free(st.taken)) {
        ReadingTaken(c, st, free);
      } else {
        StartedKept(c, st, free);
        StartPhaseKept(c, Started(c, st), free);
      }
    }
  }

  lemma StartPhaseKeeps(c: Config, st: Run, free: nat -> Option<real>)
    requires WellFormed(c, st)
    ensures Kept(c, free, st) ==> Kept(c, free, StartPhase(c, st, free)) && StartedAll(c, free, StartPhase(c, st, free))
  {
    if Kept(c, free, st) {
      StartPhaseKept(c, st, free);
    }
  }

  lemma ReadingTaken(c: Config, st: Run, free: nat -> Option<real>)
    requires Kept(c, free, st)
    ensures Kept(c, free, st.(taken := st.taken + 1))
  {
    var t := st.(taken := st.taken + 1);
    forall i | 0 <= i < |t.log|
      ensures AttemptOk(c, free, t.log[i], i, t.taken)
    {
      assert AttemptOk(c, free, st.log[i], i, st.taken);
    }
  }

  lemma PollPhaseKept(c: Config, st: Run, free: nat -> Option<real>)
    requires Kept(c, free, st)
    ensures Kept(c, free, PollPhase(c, st))
  {
    var after := PollKeeps(st.codes, c.owner, c.fates, st.running, |st.running|, st.next);
    PolledShrinks(st.running, |st.running|, c.owner, c.fates, c.jobs);
    assert Alive(st.running, |st.running|) == Polled(st.running, |st.running|);
    var t := PollPhase(c, st);
    forall i | 0 <= i < |t.log|
      ensures AttemptOk(c, free, t.log[i], i, t.taken)
    {
      assert AttemptOk(c, free, st.log[i], i, st.taken);
    }
  }

  lemma InitialKept(c: Config, free: nat -> Option<real>)
    requires Proper(c)
    ensures Kept(c, free, Initial(c))
  {
  }

  /** Every round of every run keeps all of it, before and after its starts. */
  lemma {:induction false} RoundsKept(c: Config, free: nat -> Option<real>, rounds: seq<Run>, k: nat)
    requires Traced(c, free, rounds) && k < |rounds|
    ensures Kept(c, free, rounds[k]) && Kept(c, free, StartPhase(c, rounds[k], free))
    ensures StartedAll(c, free, StartPhase(c, rounds[k], free))
  {
    if k == 0 {
      assert WellFormed(c, rounds[0]);
      InitialKept(c, free);
    } else {
      RoundsKept(c, free, rounds, k - 1);
      assert Follows(c, free, rounds[k - 1], rounds[k - 1 + 1]);
      PollPhaseKept(c, StartPhase(c, rounds[k - 1], free), free);
    }
    StartPhaseKept(c, rounds[k], free);
  }

  // ---------------------------------------------------------------- what the runner is for

  /** In every round of every run at most `limit` processes run, and with executables left something runs. */
  lemma NeverTooManyNeverStalled(c: Config, free: nat -> Option<real>, rounds: seq<Run>, k: nat)
    requires Traced(c, free, rounds) && k < |rounds|
    ensures var t := StartPhase(c, rounds[k], free);
            && |rounds[k].running| <= c.limit && |t.running| <= c.limit
            && (t.running == [] ==> t.next == |c.owner|)
  {
    RoundsKept(c, free, rounds, k);
  }

  /** A finished run has attempted every executable exactly once, in order, each below the limit, and each one beside a
      running one only after its own reading of at least the reserve and 3 GB. */
  lemma EachOnceWithinLimits(c: Config, free: nat -> Option<real>, rounds: seq<Run>)
    requires Traced(c, free, rounds) && Over(c, rounds[|rounds| - 1])
    ensures var log := rounds[|rounds| - 1].log;
            && |log| == |c.owner|
            && (forall i :: 0 <= i < |log| ==> log[i].k == i && log[i].concurrent < c.limit)
            && (forall i :: 0 <= i < |log| && log[i].concurrent > 0 && c.reserve > 0.0 ==>
                  log[i].reading.Some? && Enough(c, free(log[i].reading.value)))
            && (forall i, j :: 0 <= i < j < |log| && log[i].reading.Some? && log[j].reading.Some? ==>
                  log[i].reading.value < log[j].reading.value)
  {
    RoundsKept(c, free, rounds, |rounds| - 1);
    var st := rounds[|rounds| - 1];
    forall i | 0 <= i < |st.log|
      ensures AttemptOk(c, free, st.log[i], i, st.taken)
    {
    }
  }

  ghost predicate JobGood(c: Config, j: nat)
    requires Proper(c)
  {
    forall k: nat :: k < |c.owner| && c.owner[k] == j ==> Good(c.fates[k])
  }

  /** A finished run leaves a job code 0 exactly when all its executables spawned and exited 0. */
  lemma CodesExactly(c: Config, free: nat -> Option<real>, rounds: seq<Run>, j: nat)
    requires Traced(c, free, rounds) && Over(c, rounds[|rounds| - 1]) && j < c.jobs
    ensures Proper(c) && (rounds[|rounds| - 1].codes[j] == 0 <==> JobGood(c, j))
  {
    RoundsKept(c, free, rounds, |rounds| - 1);
    var st := rounds[|rounds| - 1];
    assert forall k: nat :: k < |c.owner| ==> k in Settled(st.running, st.next);
  }

  // ---------------------------------------------------------------- the loops

  // ---------------------------------------------------------------- the first failure stays

  /** The code is what this fate gives its job: the exit code, or 1 for a failed spawn. */
  predicate Reports(f: Fate, code: int) {
    match f
    case SpawnFails => code == 1
    case Exits(exit, _) => code == exit
  }

  ghost predicate OwnCode(c: Config, j: nat, code: int) {
    |c.fates| == |c.owner| && exists k :: 0 <= k < |c.owner| && c.owner[k] == j && Reports(c.fates[k], code)
  }

  /** A code that is not 0 stays, and one that is may become that of an executable of its own job. */
  ghost predicate Moves(c: Config, before: seq<int>, after: seq<int>) {
    && |before| == |after|
    && forall j: nat :: j < |after| ==> after[j] == before[j] || (before[j] == 0 && OwnCode(c, j, after[j]))
  }

  lemma MovesTransitive(c: Config, x: seq<int>, y: seq<int>, z: seq<int>)
    requires Moves(c, x, y) && Moves(c, y, z)
    ensures Moves(c, x, z)
  {
  }

  lemma {:induction false} StartPhaseMoves(c: Config, st: Run, free: nat -> Option<real>)
    requires WellFormed(c, st)
    ensures Moves(c, st.codes, StartPhase(c, st, free).codes)
    decreases |c.owner| - st.next
  {
    if Room(c, st) && (MustRead(c, st) ==> Enough(c, free(st.taken))) {
      var t := Started(c, st);
      assert Moves(c, st.codes, t.codes);
      StartPhaseMoves(c, t, free);
      MovesTransitive(c, st.codes, t.codes, StartPhase(c, t, free).codes);
    }
  }

  lemma {:induction false} PollMoves(c: Config, codes: seq<int>, running: seq<Proc>, i: nat)
    requires Proper(c) && i <= |running| && |codes| == c.jobs && Known(c.owner, c.fates, running, |codes|)
    ensures Moves(c, codes, CodesUpTo(codes, c.owner, c.fates, running, i))
  {
    if i > 0 {
      PollMoves(c, codes, running, i - 1);
      var before, p := CodesUpTo(codes, c.owner, c.fates, running, i - 1), running[i - 1];
      assert KnownProc(c.owner, c.fates, p, c.jobs);
      var after := CodesUpTo(codes, c.owner, c.fates, running, i);
      assert Moves(c, before, after);
      MovesTransitive(c, codes, before, after);
    }
  }

  lemma RoundMoves(c: Config, st: Run, free: nat -> Option<real>)
    requires WellFormed(c, st)
    ensures Moves(c, st.codes, Round(c, st, free).codes)
  {
    var t := StartPhase(c, st, free);
    StartPhaseMoves(c, st, free);
    PollMoves(c, t.codes, t.running, |t.running|);
    MovesTransitive(c, st.codes, t.codes, PollPhase(c, t).codes);
  }

  /** In every run a job's first failing code stays to the end, and it is that of one of its own executables. */
  lemma {:induction false} FirstFailureStays(c: Config, free: nat -> Option<real>, rounds: seq<Run>, k: nat, l: nat)
    requires Traced(c, free, rounds) && k <= l < |rounds|
    ensures Moves(c, rounds[k].codes, rounds[l].codes)
  {
    if k < l {
      FirstFailureStays(c, free, rounds, k, l - 1);
      assert Follows(c, free, rounds[l - 1], rounds[l]);
      RoundMoves(c, rounds[l - 1], free);
      MovesTransitive(c, rounds[k].codes, rounds[l - 1].codes, rounds[l].codes);
    }
  }

  /** The start loop. */
  method StartLoop(c: Config, st: Run, free: nat -> Option<real>) returns (t: Run)
    requires WellFormed(c, st)
    ensures t == StartPhase(c, st, free)
    ensures Kept(c, free, st) ==>
              Kept(c, free, t) && StartedAll(c, free, t) && (t.running == [] ==> t.next == |c.owner|)
  {
    StartPhaseKeeps(c, st, free);
    t := st;
    while t.next < |c.owner| && |t.running| < c.limit
      invariant WellFormed(c, t) && StartPhase(c, t, free) == StartPhase(c, st, free)
      decreases |c.owner| - t.next
    {
      var reading: Option<nat> := None;
      var taken := t.taken;
      if t.running != [] && c.reserve > 0.0 {
        var gb := free(taken);
        reading := Some(taken);
        taken := taken + 1;
        if gb.None? || gb.value < c.reserve + GB_PER_PARALLEL_STEP {
          t := t.(taken := taken);
          return;
        }
      }
      var log := t.log + [Attempt(t.next, |t.running|, reading)];
      match c.fates[t.next] {
        case SpawnFails =>
          var job := c.owner[t.next];
          var code := if t.codes[job] != 0 then t.codes[job] else 1;
          t := Run(t.next + 1, t.running, t.codes[job := code], taken, log);
        case Exits(_, polls) =>
          t := Run(t.next + 1, t.running + [Proc(t.next, polls)], t.codes, taken, log);
      }
    }
  }

  /** The poll loop over a snapshot of `running`: exactly the processes still alive stay. */
  method PollAll(c: Config, st: Run) returns (t: Run)
    requires WellFormed(c, st)
    ensures t == PollPhase(c, st)
    ensures forall p :: p in t.running <==>
              exists i :: 0 <= i < |st.running| && st.running[i].polls > 0 && p == Polling(st.running[i])
    ensures Life(t.running) + |st.running| <= Life(st.running)
  {
    var left: seq<Proc>, codes := [], st.codes;
    for i := 0 to |st.running|
      invariant left == Polled(st.running, i) && codes == CodesUpTo(st.codes, c.owner, c.fates, st.running, i)
    {
      var p := st.running[i];
      assert KnownProc(c.owner, c.fates, p, c.jobs);
      if p.polls > 0 {
        left := left + [Proc(p.k, p.polls - 1)];
      } else {
        codes := codes[c.owner[p.k] := Updated(codes, c.owner[p.k], c.fates[p.k].code)];
      }
    }
    PolledShrinks(st.running, |st.running|, c.owner, c.fates, c.jobs);
    PolledExactly(st.running, |st.running|);
    assert st.running[..|st.running|] == st.running;
    t := st.(running := left, codes := codes);
  }

  lemma TraceGrows(c: Config, free: nat -> Option<real>, rounds: seq<Run>, t: Run)
    requires Traced(c, free, rounds) && Follows(c, free, rounds[|rounds| - 1], t)
    ensures Traced(c, free, rounds + [t])
  {
    var all := rounds + [t];
    forall k | 0 <= k < |all| - 1
      ensures Follows(c, free, all[k], all[k + 1])
    {
      assert k < |rounds| - 1 ==> Follows(c, free, rounds[k], rounds[k + 1]);
    }
  }

  /** `_run_parallel`: a whole run of rounds, each determined by the fates and readings, and the codes it ends with. */
  method RunParallel(c: Config, free: nat -> Option<real>) returns (codes: seq<int>)
    requires Proper(c)
    ensures exists rounds: seq<Run> ::
              Traced(c, free, rounds) && Over(c, rounds[|rounds| - 1]) && codes == rounds[|rounds| - 1].codes
    ensures |codes| == c.jobs && forall j :: 0 <= j < c.jobs ==> (codes[j] == 0 <==> JobGood(c, j))
  {
    var st := Initial(c);
    ghost var rounds := [st];
    while st.next < |c.owner| || st.running != []
      invariant Traced(c, free, rounds) && rounds[|rounds| - 1] == st
      decreases |c.owner| - st.next, Life(st.running)
    {
      RoundsKept(c, free, rounds, |rounds| - 1);
      var started := StartLoop(c, st, free);
      var polled := PollAll(c, started);
      TraceGrows(c, free, rounds, polled);
      StartPhaseSame(c, st, free);
      rounds := rounds + [polled];
      st := polled;
    }
    codes := st.codes;
    forall j | 0 <= j < c.jobs
      ensures codes[j] == 0 <==> JobGood(c, j)
    {
      CodesExactly(c, free, rounds, j);
    }
  }

  /** A start phase that starts nothing leaves the processes as they are. */
  lemma StartPhaseSame(c: Config, st: Run, free: nat -> Option<real>)
    requires WellFormed(c, st)
    ensures StartPhase(c, st, free).next == st.next ==> StartPhase(c, st, free).running == st.running
  {
  }
}
