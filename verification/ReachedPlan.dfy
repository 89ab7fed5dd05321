/**
 * The plan `run_reached.py` executes: steps, proof keys, recorded results, the execution order
 * and the slot group taken from the front of the work queue.
 */
module ReachedPlan {
  import opened Lists

  datatype Step = Step(argv: seq<string>, cwd: string, slot: bool, browser: bool)

  const STUDIO_APP := "apps/studio"

  predicate Cargo(argv: seq<string>) {
    |argv| >= 3 && argv[0] == "cargo" && |argv[1]| > 0 && argv[1][0] == '+'
  }

  predicate FmtCheck(argv: seq<string>) {
    Cargo(argv) && argv[2..] == ["fmt", "--all", "--", "--check"]
  }

  predicate Batchable(step: Step) {
    step.slot && Cargo(step.argv) && !FmtCheck(step.argv)
  }

  predicate VitestStep(argv: seq<string>, cwd: string) {
    cwd == STUDIO_APP && |argv| >= 2 && argv[..2] == ["npx", "vitest"]
  }

  /** What the two tests recognise: a command of a pinned cargo, the formatting check among them, and a vitest command
      in the Studio. */
  lemma CommandsExactly(argv: seq<string>, cwd: string)
    ensures Cargo(argv) <==> exists channel, rest :: rest != [] && argv == ["cargo", "+" + channel] + rest
    ensures FmtCheck(argv) <==> exists channel :: argv == ["cargo", "+" + channel, "fmt", "--all", "--", "--check"]
    ensures VitestStep(argv, cwd) <==> cwd == "apps/studio" && exists rest :: argv == ["npx", "vitest"] + rest
  {
    if Cargo(argv) {
      assert argv[1] == "+" + argv[1][1..];
      assert argv == ["cargo", "+" + argv[1][1..]] + argv[2..];
    }
    if FmtCheck(argv) {
      var tail := ["fmt", "--all", "--", "--check"];
      assert argv == argv[..2] + argv[2..] == ["cargo", "+" + argv[1][1..]] + tail;
      assert argv == ["cargo", "+" + argv[1][1..], "fmt", "--all", "--", "--check"];
    }
    if channel :| argv == ["cargo", "+" + channel, "fmt", "--all", "--", "--check"] {
      assert argv[2..] == ["fmt", "--all", "--", "--check"];
    }
    if VitestStep(argv, cwd) {
      assert argv == ["npx", "vitest"] + argv[2..];
    }
  }

  /** `_sha` of these six fields; the digest is taken to be injective, so the key is the record. */
  datatype ProofKey = ProofKey(tree: string, tools: string, env: string, argv: seq<string>, cwd: string, slot: bool)

  datatype Fingerprint = Fingerprint(tree: string, tools: string, env: string)

  function KeyOf(fp: Fingerprint, step: Step): (k: ProofKey) {
    ProofKey(fp.tree, fp.tools, fp.env, step.argv, step.cwd, step.slot)
  }

  /** The two steps are the same work: same tree, tools and environment, same command, directory and slot. */
  predicate SameWork(f: Fingerprint, s: Step, g: Fingerprint, t: Step) {
    && f.tree == g.tree && f.tools == g.tools && f.env == g.env
    && s.argv == t.argv && s.cwd == t.cwd && s.slot == t.slot
  }

  /** Two steps share a key exactly when they are the same work. */
  lemma KeyIsTheWork(f: Fingerprint, s: Step, g: Fingerprint, t: Step)
    ensures KeyOf(f, s) == KeyOf(g, t) <==> SameWork(f, s, g, t)
  {
  }

  datatype Vitest = Vitest(passed: nat, failed: nat, errors: nat, success: bool)

  /** One entry of the report's `completed` list. `returncode` is None after a timeout. */
  datatype Result = Result(
    index: nat, argv: seq<string>, cwd: string, returncode: Option<int>,
    error: bool, zeroTests: bool, unobserved: bool, reused: bool,
    vitest: Option<Vitest>, proofKey: Option<ProofKey>, reusable: bool)

  /** An entry of the work queue; `serial` marks a fallback that may not be split again. */
  datatype Item = Item(index: nat, serial: bool)

  function Indices(rs: seq<Result>): (s: seq<nat>)
    ensures |s| == |rs|
    ensures forall i :: 0 <= i < |rs| ==> s[i] == rs[i].index
  {
    seq(|rs|, i requires 0 <= i < |rs| => rs[i].index)
  }

  function Queue(w: seq<Item>): (s: seq<nat>)
    ensures |s| == |w|
    ensures forall i :: 0 <= i < |w| ==> s[i] == w[i].index
  {
    seq(|w|, i requires 0 <= i < |w| => w[i].index)
  }

  /** A plain step counts two (build, then run), a serial fallback one. */
  function Weight(w: seq<Item>): (n: nat) {
    if w == [] then 0 else (if w[0].serial then 1 else 2) + Weight(w[1..])
  }

  lemma QueueConcat(a: seq<Item>, b: seq<Item>)
    ensures multiset(Queue(a + b)) == multiset(Queue(a)) + multiset(Queue(b))
  {
    assert Queue(a + b) == Queue(a) + Queue(b);
  }

  lemma IndicesConcat(a: seq<Result>, b: seq<Result>)
    ensures multiset(Indices(a + b)) == multiset(Indices(a)) + multiset(Indices(b))
  {
    assert Indices(a + b) == Indices(a) + Indices(b);
  }

  lemma {:induction false} IndicesSplit(rs: seq<Result>, p: Result -> bool, q: Result -> bool)
    requires forall r :: r in rs ==> p(r) == !q(r)
    ensures multiset(Indices(Filter(rs, p))) + multiset(Indices(Filter(rs, q))) == multiset(Indices(rs))
  {
    if rs != [] {
      assert rs == [rs[0]] + rs[1..];
      IndicesSplit(rs[1..], p, q);
      IndicesConcat([rs[0]], rs[1..]);
      if p(rs[0]) {
        IndicesConcat([rs[0]], Filter(rs[1..], p));
      } else {
        IndicesConcat([rs[0]], Filter(rs[1..], q));
      }
    }
  }

  lemma {:induction false} WeightConcat(a: seq<Item>, b: seq<Item>)
    ensures Weight(a + b) == Weight(a) + Weight(b)
  {
    if a == [] {
      assert a + b == b;
    } else {
      assert (a + b)[1..] == a[1..] + b;
      WeightConcat(a[1..], b);
    }
  }

  /** Position of the first slot Cargo step among `rest`. */
  function FirstCargo(steps: seq<Step>, rest: seq<nat>): (k: nat)
    requires forall i :: 0 <= i < |rest| ==> rest[i] < |steps|
    ensures k <= |rest|
    ensures forall i :: 0 <= i < k ==> !(steps[rest[i]].slot && Cargo(steps[rest[i]].argv))
    ensures k < |rest| ==> steps[rest[k]].slot && Cargo(steps[rest[k]].argv)
  {
    if rest == [] || (steps[rest[0]].slot && Cargo(steps[rest[0]].argv)) then 0
    else
      1 + FirstCargo(steps, rest[1..])
  }

  function IsFmt(steps: seq<Step>): nat -> bool {
    (i: nat) => i < |steps| && FmtCheck(steps[i].argv)
  }

  function IsNotFmt(steps: seq<Step>): nat -> bool {
    (i: nat) => i < |steps| && !FmtCheck(steps[i].argv)
  }

  /** `_execution_order`: formatting checks move in front of the first slot Cargo step. */
  function ExecutionOrder(steps: seq<Step>, batchMode: bool): (order: seq<nat>) {
    var all: seq<nat> := Range(|steps|);
    if !batchMode then all else
      var fmts := Filter(all, IsFmt(steps));
      var rest := Filter(all, IsNotFmt(steps));
      var first := FirstCargo(steps, rest);
      rest[..first] + fmts + rest[first..]
  }

  lemma ExecutionOrderIsPermutation(steps: seq<Step>, batchMode: bool)
    ensures multiset(ExecutionOrder(steps, batchMode)) == multiset(Range(|steps|))
    ensures forall i: nat :: i in ExecutionOrder(steps, batchMode) ==> i < |steps|
  {
    var all: seq<nat> := Range(|steps|);
    var order: seq<nat> := ExecutionOrder(steps, batchMode);
    if batchMode {
      var rest := Filter(all, IsNotFmt(steps));
      var first := FirstCargo(steps, rest);
      FilterSplits(all, IsFmt(steps), IsNotFmt(steps));
      SplicePermutes(rest, Filter(all, IsFmt(steps)), first);
    }
    forall i: nat | i in order
      ensures i < |steps|
    {
      assert i in multiset(order);
      assert i in all;
    }
  }

  lemma SplicePermutes(rest: seq<nat>, extra: seq<nat>, k: nat)
    requires k <= |rest|
    ensures multiset(rest[..k] + extra + rest[k..]) == multiset(extra) + multiset(rest)
  {
    assert rest == rest[..k] + rest[k..];
  }

  /** Format checks spliced in front of the first slot Cargo step come before everything batchable. */
  lemma SplicedFirst(steps: seq<Step>, rest: seq<nat>, fmts: seq<nat>, k: nat, a: nat, b: nat)
    requires forall i :: 0 <= i < |rest| ==> rest[i] < |steps| && !FmtCheck(steps[rest[i]].argv)
    requires forall i :: 0 <= i < |fmts| ==> fmts[i] < |steps| && FmtCheck(steps[fmts[i]].argv)
    requires k <= |rest| && forall i :: 0 <= i < k ==> !(steps[rest[i]].slot && Cargo(steps[rest[i]].argv))
    requires var order := rest[..k] + fmts + rest[k..];
             a < b < |order| && order[b] < |steps| && FmtCheck(steps[order[b]].argv)
    ensures var order := rest[..k] + fmts + rest[k..];
            order[a] < |steps| && !Batchable(steps[order[a]])
  {
    var order := rest[..k] + fmts + rest[k..];
    assert forall i :: k + |fmts| <= i < |order| ==> order[i] == rest[i - |fmts|];
    if a < k {
      assert order[a] == rest[a];
    } else {
      assert order[a] == fmts[a - k];
    }
  }

  /** In batch mode no format check runs after a batchable step. */
  lemma FormatChecksRunFirst(steps: seq<Step>, a: nat, b: nat)
    requires a < b < |ExecutionOrder(steps, true)|
    requires ExecutionOrder(steps, true)[b] < |steps| && ExecutionOrder(steps, true)[a] < |steps|
    requires FmtCheck(steps[ExecutionOrder(steps, true)[b]].argv)
    ensures !Batchable(steps[ExecutionOrder(steps, true)[a]])
  {
    var all: seq<nat> := Range(|steps|);
    var fmts := Filter(all, IsFmt(steps));
    var rest := Filter(all, IsNotFmt(steps));
    SplicedFirst(steps, rest, fmts, FirstCargo(steps, rest), a, b);
  }

  /** `next` may join the slot call that `first` opens. */
  predicate Joins(steps: seq<Step>, first: Item, next: Item)
    requires first.index < |steps| && next.index < |steps|
  {
    Batchable(steps[next.index]) && steps[next.index].cwd == steps[first.index].cwd
  }

  /** How many entries of `work` one slot call takes: as many batchable ones of one directory as stand in front, at
      most four; any other entry goes alone. */
  function GroupSize(steps: seq<Step>, work: seq<Item>, batchMode: bool): (k: nat)
    requires work != [] && forall w :: w in work ==> w.index < |steps|
    ensures 1 <= k <= |work| && k <= 4
    ensures k > 1 ==> batchMode && forall i :: 0 <= i < k ==>
              Batchable(steps[work[i].index]) && steps[work[i].index].cwd == steps[work[0].index].cwd
    ensures batchMode && Batchable(steps[work[0].index]) && k < |work| && k < 4 ==>
              !Batchable(steps[work[k].index]) || steps[work[k].index].cwd != steps[work[0].index].cwd
  {
    if batchMode && Batchable(steps[work[0].index]) then Extend(steps, work, 1) else 1
  }

  function Extend(steps: seq<Step>, work: seq<Item>, k: nat): (n: nat)
    requires 1 <= k <= |work| && k <= 4
    requires forall w :: w in work ==> w.index < |steps|
    requires forall i :: 0 <= i < k ==> Joins(steps, work[0], work[i])
    ensures k <= n <= |work| && n <= 4
    ensures forall i :: 0 <= i < n ==> Joins(steps, work[0], work[i])
    ensures n < |work| && n < 4 ==> !Joins(steps, work[0], work[n])
    decreases |work| - k
  {
    if k < |work| && k < 4 && Joins(steps, work[0], work[k]) then Extend(steps, work, k + 1) else k
  }
}
