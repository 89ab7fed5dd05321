/** Test selection of `reached_tests.py`: bundle steps, dependency closures and grouping of single selections. */
module TestSelection {
  import opened Lists

  // ---------------------------------------------------------------- libtest's own argument rules

  /** A filter matches anywhere in the test's full name. */
  ghost predicate Matches(test: string, filter: string) {
    exists i :: 0 <= i <= |test| && filter <= test[i..]
  }

  datatype Selection = Selection(skips: seq<string>, filters: seq<string>)

  const THREADS := "--test-threads=2"

  /** The arguments after `--`: `--skip` takes the next one, the thread count stands alone, anything else that looks
      like an option is refused, and the rest are filters. */
  function Parse(args: seq<string>): (r: Option<Selection>)
    decreases |args|
  {
    if args == [] then Some(Selection([], []))
    else if args[0] == "--skip" && |args| > 1 then
      var rest := Parse(args[2..]);
      if rest.None? then None else Some(rest.value.(skips := [args[1]] + rest.value.skips))
    else if args[0] == THREADS then Parse(args[1..])
    else if args[0] != [] && args[0][0] == '-' then None
    else
      var rest := Parse(args[1..]);
      if rest.None? then None else Some(rest.value.(filters := [args[0]] + rest.value.filters))
  }

  /** A test runs if the arguments are accepted, some filter matches, or there is none, and no skip matches. */
  ghost predicate Runs(args: seq<string>, test: string) {
    && Parse(args).Some?
    && var sel := Parse(args).value;
       && (sel.filters == [] || exists f :: f in sel.filters && Matches(test, f))
       && forall s :: s in sel.skips ==> !Matches(test, s)
  }

  // ---------------------------------------------------------------- bundle steps

  function Path(name: string): (r: string) {
    name + "::"
  }

  /** A module's name does not look like an option. */
  predicate ModuleName(name: string) {
    name == [] || name[0] != '-'
  }

  function Paths(modules: seq<string>): (r: seq<string>)
    ensures |r| == |modules|
    ensures forall i :: 0 <= i < |r| ==> r[i] == Path(modules[i])
  {
    if modules == [] then [] else Paths(modules[..|modules| - 1]) + [Path(modules[|modules| - 1])]
  }

  /** `--skip` in front of each. */
  function Skips(paths: seq<string>): (args: seq<string>) {
    if paths == [] then [] else ["--skip", paths[0]] + Skips(paths[1..])
  }

  lemma {:induction false} ParseSkips(paths: seq<string>, tail: seq<string>)
    ensures Parse(Skips(paths) + tail) == Prefixed(paths, Parse(tail))
    decreases |paths|
  {
    if paths == [] {
      assert Skips(paths) + tail == tail;
      PrefixedNone(Parse(tail));
    } else {
      ParseSkips(paths[1..], tail);
      SkipFirst(paths, tail);
      ParseSkip(Skips(paths) + tail, paths[0], Skips(paths[1..]) + tail);
      PrefixedOne(paths, Parse(tail));
    }
  }

  /** The same selection with more skips in front. */
  function Prefixed(paths: seq<string>, sel: Option<Selection>): (r: Option<Selection>) {
    if sel.None? then None else Some(sel.value.(skips := paths + sel.value.skips))
  }

  lemma PrefixedNone(sel: Option<Selection>)
    ensures Prefixed([], sel) == sel
  {
    assert sel.Some? ==> [] + sel.value.skips == sel.value.skips;
  }

  lemma PrefixedOne(paths: seq<string>, sel: Option<Selection>)
    requires paths != []
    ensures Prefixed([paths[0]], Prefixed(paths[1..], sel)) == Prefixed(paths, sel)
  {
    if sel.Some? {
      assert [paths[0]] + (paths[1..] + sel.value.skips) == paths + sel.value.skips;
    }
  }

  lemma ParseSkip(args: seq<string>, path: string, rest: seq<string>)
    requires |args| >= 2 && args[0] == "--skip" && args[1] == path && args[2..] == rest
    ensures Parse(args) == Prefixed([path], Parse(rest))
  {
  }

  lemma {:induction false} SkipFirst(paths: seq<string>, tail: seq<string>)
    requires paths != []
    ensures var args := Skips(paths) + tail;
            |args| >= 2 && args[0] == "--skip" && args[1] == paths[0] && args[2..] == Skips(paths[1..]) + tail
  {
    TwoThenRest("--skip", paths[0], Skips(paths[1..]), tail);
  }

  lemma TwoThenRest(a: string, b: string, rest: seq<string>, tail: seq<string>)
    ensures var args := ([a, b] + rest) + tail; |args| >= 2 && args[0] == a && args[1] == b && args[2..] == rest + tail
  {
  }

  lemma {:induction false} SkipsGrow(paths: seq<string>, last: string)
    ensures Skips(paths + [last]) == Skips(paths) + ["--skip", last]
    decreases |paths|
  {
    if paths != [] {
      SkipsGrow(paths[1..], last);
      assert (paths + [last])[1..] == paths[1..] + [last];
    }
  }

  /** The step's arguments: earlier modules skipped, then its own path, if it has one, as the filter. */
  function StepArgs(modules: seq<string>, k: nat): (args: seq<string>)
    requires k <= |modules|
  {
    [THREADS] + Skips(Paths(modules)[..k]) + if k < |modules| then [Path(modules[k])] else []
  }

  lemma ParseThreads(args: seq<string>)
    ensures Parse([THREADS] + args) == Parse(args)
  {
    assert THREADS[2] == 't';
    assert THREADS != "--skip";
    assert ([THREADS] + args)[1..] == args;
  }

  lemma ParseOne(arg: string)
    requires arg != THREADS
    ensures Parse([arg]) == if arg != [] && arg[0] == '-' then None else Some(Selection([], [arg]))
  {
    var args: seq<string> := [arg];
    assert args[1..] == [];
    assert Parse(args[1..]) == Some(Selection([], []));
    assert [arg] + [] == [arg];
  }

  lemma PathIsNoOption(name: string)
    ensures Path(name) != THREADS && Path(name) != []
    ensures Path(name)[0] == '-' <==> !ModuleName(name)
  {
    assert Path(name)[|Path(name)| - 1] == ':';
    assert THREADS[|THREADS| - 1] == '2';
  }

  lemma ParseArgs(paths: seq<string>, tail: seq<string>)
    requires Parse(tail).Some? ==> Parse(tail).value == Selection([], tail)
    ensures Parse([THREADS] + Skips(paths) + tail) == if Parse(tail).Some? then Some(Selection(paths, tail)) else None
  {
    assert [THREADS] + Skips(paths) + tail == [THREADS] + (Skips(paths) + tail);
    ParseThreads(Skips(paths) + tail);
    ParseSkips(paths, tail);
    assert Parse(tail).Some? ==> paths + Parse(tail).value.skips == paths;
  }

  /** A step's arguments are refused exactly when its own path looks like an option. */
  lemma ParseStep(modules: seq<string>, k: nat)
    requires k <= |modules|
    ensures Parse(StepArgs(modules, k)) ==
              if k == |modules| then Some(Selection(Paths(modules), []))
              else if ModuleName(modules[k]) then Some(Selection(Paths(modules)[..k], [Path(modules[k])]))
              else None
  {
    if k < |modules| {
      PathIsNoOption(modules[k]);
      ParseOne(Path(modules[k]));
      ParseArgs(Paths(modules)[..k], [Path(modules[k])]);
    } else {
      assert Paths(modules)[..k] == Paths(modules);
      ParseArgs(Paths(modules)[..k], []);
    }
  }

  /** Step `k` runs a test exactly when module `k` is the first that matches and does not look like an option; the
      last step when none matches. */
  lemma StepRuns(modules: seq<string>, k: nat, test: string)
    requires k <= |modules|
    ensures Runs(StepArgs(modules, k), test) <==>
              && (k < |modules| ==> ModuleName(modules[k]) && Matches(test, Path(modules[k])))
              && (forall i :: 0 <= i < k ==> !Matches(test, Path(modules[i])))
  {
    ParseStep(modules, k);
    if Parse(StepArgs(modules, k)).Some? {
      var sel := Parse(StepArgs(modules, k)).value;
      if k < |modules| {
        assert Path(modules[k]) in sel.filters;
      }
      forall i | 0 <= i < k
        ensures Path(modules[i]) in sel.skips
      {
        assert sel.skips[i] == Path(modules[i]);
      }
    }
  }

  /** Exactly one of the steps runs the test. */
  ghost predicate RunOnce(steps: seq<seq<string>>, test: string) {
    exists k :: 0 <= k < |steps| && Runs(steps[k], test) && forall j :: 0 <= j < |steps| && Runs(steps[j], test) ==>
        j == k
  }

  lemma MatchesThrough(test: string, a: string, b: string)
    requires Matches(test, a) && Matches(a, b)
    ensures Matches(test, b)
  {
    var i :| 0 <= i <= |test| && a <= test[i..];
    var j :| 0 <= j <= |a| && b <= a[j..];
    assert a == test[i..i + |a|];
    assert test[i + j..][..|b|] == a[j..][..|b|];
    assert b <= test[i + j..];
  }

  /** A module that looks like an option does no harm when an earlier one already takes all its tests. */
  ghost predicate Separable(modules: seq<string>) {
    forall k :: 0 <= k < |modules| ==>
      ModuleName(modules[k]) || exists i :: 0 <= i < k && Matches(Path(modules[k]), Path(modules[i]))
  }

  /** The step of the first module that matches, or the last step. */
  lemma FirstMatch(modules: seq<string>, test: string) returns (k: nat)
    ensures k <= |modules| && (k < |modules| ==> Matches(test, Path(modules[k])))
    ensures forall i :: 0 <= i < k ==> !Matches(test, Path(modules[i]))
  {
    k := 0;
    while k < |modules| && !Matches(test, Path(modules[k]))
      invariant 0 <= k <= |modules|
      invariant forall i :: 0 <= i < k ==> !Matches(test, Path(modules[i]))
    {
      k := k + 1;
    }
  }

  ghost predicate AreSteps(modules: seq<string>, steps: seq<seq<string>>) {
    |steps| == |modules| + 1 && forall k :: 0 <= k <= |modules| ==> steps[k] == StepArgs(modules, k)
  }

  lemma StepsPartition(modules: seq<string>, steps: seq<seq<string>>, test: string)
    requires AreSteps(modules, steps) && Separable(modules)
    ensures RunOnce(steps, test)
  {
    var k := FirstMatch(modules, test);
    if k < |modules| && !ModuleName(modules[k]) {
      var i :| 0 <= i < k && Matches(Path(modules[k]), Path(modules[i]));
      MatchesThrough(test, Path(modules[k]), Path(modules[i]));
    }
    forall j | 0 <= j < |steps|
      ensures Runs(steps[j], test) <==> j == k
    {
      StepRuns(modules, j, test);
    }
    assert Runs(steps[k], test);
  }

  /** A module that looks like an option, and whose path no earlier one occurs in, leaves its own path unrun. */
  lemma OptionLeavesTest(modules: seq<string>, steps: seq<seq<string>>, k: nat)
    requires AreSteps(modules, steps) && k < |modules| && !ModuleName(modules[k])
    requires forall i :: 0 <= i < k ==> !Matches(Path(modules[k]), Path(modules[i]))
    ensures !RunOnce(steps, Path(modules[k]))
  {
    var test := Path(modules[k]);
    assert test[0..] == test;
    assert Matches(test, Path(modules[k]));
    forall j | 0 <= j < |steps|
      ensures !Runs(steps[j], test)
    {
      StepRuns(modules, j, test);
    }
  }

  lemma PartitionExactly(modules: seq<string>, steps: seq<seq<string>>)
    requires AreSteps(modules, steps)
    ensures (forall test :: RunOnce(steps, test)) <==> Separable(modules)
  {
    if Separable(modules) {
      forall test
        ensures RunOnce(steps, test)
      {
        StepsPartition(modules, steps, test);
      }
    } else {
      var k :| 0 <= k < |modules| && !ModuleName(modules[k])
               && forall i :: 0 <= i < k ==> !Matches(Path(modules[k]), Path(modules[i]));
      OptionLeavesTest(modules, steps, k);
    }
  }

  /** `_cli_bundle_steps`: exactly one step runs each test, for any modules, overlapping names included, if and only if
      no module that looks like an option stands alone; Rust's module names never look like one. */
  method BundleSteps(modules: seq<string>) returns (steps: seq<seq<string>>)
    ensures modules == [] ==> steps == []
    ensures modules != [] ==> AreSteps(modules, steps)
    ensures modules != [] ==>
              |steps| == |modules| + 1 && ((forall test :: RunOnce(steps, test)) <==> Separable(modules))
    ensures modules != [] && (forall m :: m in modules ==> ModuleName(m)) ==> forall test :: RunOnce(steps, test)
  {
    if modules == [] {
      return [];
    }
    steps := [];
    var prior: seq<string> := [];
    for index := 0 to |modules|
      invariant prior == Skips(Paths(modules)[..index])
      invariant |steps| == index && forall k :: 0 <= k < index ==> steps[k] == StepArgs(modules, k)
    {
      steps := steps + [[THREADS] + prior + [Path(modules[index])]];
      SkipsGrow(Paths(modules)[..index], Path(modules[index]));
      assert Paths(modules)[..index + 1] == Paths(modules)[..index] + [Path(modules[index])];
      prior := prior + ["--skip", Path(modules[index])];
    }
    assert [THREADS] + prior + [] == [THREADS] + prior;
    steps := steps + [[THREADS] + prior];
    PartitionExactly(modules, steps);
  }

  // ---------------------------------------------------------------- dependency closures

  datatype Package = Package(name: string, deps: set<string>, devDeps: set<string>)

  /** Every package with a normal or build dependency in the set is in the set. */
  ghost predicate Closed(packages: seq<Package>, s: set<string>) {
    forall i :: 0 <= i < |packages| && packages[i].deps * s != {} ==> packages[i].name in s
  }

  /** The least closed set with the given names. */
  ghost predicate Least(packages: seq<Package>, names: set<string>, s: set<string>) {
    && names <= s && Closed(packages, s)
    && forall c: set<string> :: names <= c && Closed(packages, c) ==> s <= c
  }

  function NamesOf(packages: seq<Package>): (r: set<string>) {
    set p | p in packages :: p.name
  }

  /** `_normal_closure`, and the loop of `dependents`: the breadth-first rounds end in the least closed set. */
  method Closure(packages: seq<Package>, names: set<string>) returns (reached: set<string>)
    ensures Least(packages, names, reached)
  {
    reached := names;
    var frontier := names;
    while frontier != {}
      invariant names <= reached && frontier <= reached
      invariant forall i :: 0 <= i < |packages| && packages[i].deps * (reached - frontier) != {} ==>
                  packages[i].name in reached
      invariant forall c: set<string> :: names <= c && Closed(packages, c) ==> reached <= c
      decreases NamesOf(packages) - reached, frontier
    {
      ghost var before, front := reached, frontier;
      frontier := set p | p in packages && p.name !in reached && p.deps * frontier != {} :: p.name;
      reached := reached + frontier;
      assert reached - frontier == before;
      forall i | 0 <= i < |packages| && packages[i].deps * before != {}
        ensures packages[i].name in reached
      {
        Splits(packages[i].deps, before, front);
        assert packages[i] in packages;
      }
      forall c: set<string> | names <= c && Closed(packages, c)
        ensures reached <= c
      {
        Absorbs(packages, before, front, frontier, c);
      }
    }
    assert reached - {} == reached;
  }

  lemma Splits(deps: set<string>, all: set<string>, front: set<string>)
    requires deps * all != {}
    ensures deps * (all - front) != {} || deps * front != {}
  {
    var d :| d in deps * all;
    assert d in deps * (all - front) || d in deps * front;
  }

  /** A closed set that holds the frontier holds the next one. */
  lemma Absorbs(packages: seq<Package>, reached: set<string>, front: set<string>, next: set<string>, c: set<string>)
    requires Closed(packages, c) && reached <= c && front <= reached
    requires forall n :: n in next ==>
               exists i :: 0 <= i < |packages| && packages[i].name == n && packages[i].deps * front != {}
    ensures reached + next <= c
  {
    forall n | n in next
      ensures n in c
    {
      var i :| 0 <= i < |packages| && packages[i].name == n && packages[i].deps * front != {};
      var d :| d in packages[i].deps * front;
      assert d in packages[i].deps * c;
    }
  }

  /** `dependents`: the least closed set, and one step of dev-dependencies on top that is not followed on. */
  method Dependents(packages: seq<Package>, names: set<string>) returns (reached: set<string>)
    ensures exists normal :: Least(packages, names, normal)
              && forall n :: n in reached <==>
                  n in normal || exists p :: p in packages && p.name == n && p.devDeps * normal != {}
  {
    var normal := Closure(packages, names);
    reached := normal + set p | p in packages && p.devDeps * normal != {} :: p.name;
  }

  // ---------------------------------------------------------------- grouping

  datatype Single = Single(package: string, target: string, module_: Option<string>)

  /** One step: the executables it runs and its filters, none meaning everything. */
  datatype Group = Group(package: string, targets: set<string>, filters: Option<set<string>>)

  const CLI := "graphhelm-cli"
  const BIN := "bin:graphhelm"
  const TESTS := "cli"

  /** The selections ask for this test of this executable. */
  ghost predicate Asked(singles: seq<Single>, package: string, target: string, test: string) {
    exists s :: s in singles && s.package == package && s.target == target
      && (s.module_.None? || Matches(test, Path(s.module_.value)))
  }

  ghost predicate GroupRuns(g: Group, package: string, target: string, test: string) {
    && g.package == package && target in g.targets
    && (g.filters.None? || exists f :: f in g.filters.value && Matches(test, f))
  }

  ghost predicate Grouped(groups: set<Group>, package: string, target: string, test: string) {
    exists g :: g in groups && GroupRuns(g, package, target, test)
  }

  datatype Entry = Entry(unfiltered: bool, modules: set<string>)

  function Filters(e: Entry): (f: Option<set<string>>) {
    if e.unfiltered then None else Some(e.modules)
  }

  ghost predicate EntryRuns(e: Entry, test: string) {
    e.unfiltered || exists f :: f in e.modules && Matches(test, f)
  }

  /** The table asks for exactly the tests the selections ask for. */
  ghost predicate Table(singles: seq<Single>, grouped: map<(string, string), Entry>) {
    forall package, target, test ::
      Asked(singles, package, target, test) <==>
          (package, target) in grouped && EntryRuns(grouped[(package, target)], test)
  }

  function Added(e: Entry, m: Option<string>): (r: Entry) {
    if m.None? then e.(unfiltered := true) else e.(modules := e.modules + {Path(m.value)})
  }

  lemma AddedRuns(e: Entry, m: Option<string>, test: string)
    ensures EntryRuns(Added(e, m), test) <==> EntryRuns(e, test) || m.None? || Matches(test, Path(m.value))
  {
    if m.Some? {
      assert Path(m.value) in Added(e, m).modules;
    }
  }

  lemma AskedMore(singles: seq<Single>, s: Single, package: string, target: string, test: string)
    ensures Asked(singles + [s], package, target, test) <==>
              Asked(singles, package, target, test)
              || (s.package == package && s.target == target
                  && (s.module_.None? || Matches(test, Path(s.module_.value))))
  {
    assert forall x :: x in singles + [s] <==> x in singles || x == s;
  }

  lemma TableGrows(singles: seq<Single>, grouped: map<(string, string), Entry>, s: Single)
    requires Table(singles, grouped)
    ensures var key := (s.package, s.target);
            var entry := if key in grouped then grouped[key] else Entry(false, {});
            Table(singles + [s], grouped[key := Added(entry, s.module_)])
  {
    var key := (s.package, s.target);
    var entry := if key in grouped then grouped[key] else Entry(false, {});
    var next := grouped[key := Added(entry, s.module_)];
    forall package, target, test
      ensures Asked(singles + [s], package, target, test) <==>
                (package, target) in next && EntryRuns(next[(package, target)], test)
    {
      AskedMore(singles, s, package, target, test);
      AddedRuns(entry, s.module_, test);
    }
  }

  /** One group for each executable in the table. */
  function GroupsOf(grouped: map<(string, string), Entry>): (gs: set<Group>) {
    set key | key in grouped :: Group(key.0, {key.1}, Filters(grouped[key]))
  }

  lemma GroupsRun(grouped: map<(string, string), Entry>, package: string, target: string, test: string)
    ensures Grouped(GroupsOf(grouped), package, target, test) <==>
              (package, target) in grouped && EntryRuns(grouped[(package, target)], test)
  {
    if (package, target) in grouped {
      var g := Group(package, {target}, Filters(grouped[(package, target)]));
      assert g in GroupsOf(grouped);
      assert GroupRuns(g, package, target, test) <==> EntryRuns(grouped[(package, target)], test);
    }
  }

  /** Both executables of the command line tool are selected, each by modules only. */
  ghost predicate Merged(singles: seq<Single>) {
    && (exists s :: s in singles && s.package == CLI && s.target == BIN)
    && (exists s :: s in singles && s.package == CLI && s.target == TESTS)
    && (forall s :: s in singles && s.package == CLI && s.target in {BIN, TESTS} ==> s.module_.Some?)
  }

  predicate PairTarget(package: string, target: string) {
    package == CLI && (target == BIN || target == TESTS)
  }

  /** Two groups replaced by one run both executables with the filters of both. */
  lemma MergeRuns(grouped: map<(string, string), Entry>, package: string, target: string, test: string)
    requires (CLI, BIN) in grouped && (CLI, TESTS) in grouped
    requires !grouped[(CLI, BIN)].unfiltered && !grouped[(CLI, TESTS)].unfiltered
    ensures var left, right := grouped[(CLI, BIN)], grouped[(CLI, TESTS)];
            var both := Group(CLI, {BIN, TESTS}, Some(left.modules + right.modules));
            var groups := GroupsOf(grouped - {(CLI, BIN), (CLI, TESTS)}) + {both};
            Grouped(groups, package, target, test) <==>
              if PairTarget(package, target) then EntryRuns(left, test) || EntryRuns(right, test)
              else (package, target) in grouped && EntryRuns(grouped[(package, target)], test)
  {
    var left, right := grouped[(CLI, BIN)], grouped[(CLI, TESTS)];
    var rest := grouped - {(CLI, BIN), (CLI, TESTS)};
    var both := Group(CLI, {BIN, TESTS}, Some(left.modules + right.modules));
    GroupsRun(rest, package, target, test);
    assert Grouped(GroupsOf(rest) + {both}, package, target, test) <==>
           Grouped(GroupsOf(rest), package, target, test) || GroupRuns(both, package, target, test) by {
      assert forall g :: g in GroupsOf(rest) + {both} <==> g in GroupsOf(rest) || g == both;
    }
    assert (exists f :: f in left.modules + right.modules && Matches(test, f)) <==>
        EntryRuns(left, test) || EntryRuns(right, test);
  }

  /** The first loop of `_group_single`: a table entry for exactly the selected executables. */
  method Tabulate(singles: seq<Single>) returns (grouped: map<(string, string), Entry>)
    ensures Table(singles, grouped)
    ensures forall key :: key in grouped ==> exists s :: s in singles && s.package == key.0 && s.target == key.1
    ensures forall s :: s in singles ==> (s.package, s.target) in grouped
    ensures forall key :: key in grouped ==> (grouped[key].unfiltered <==> Single(key.0, key.1, None) in singles)
  {
    grouped := map[];
    assert Table([], grouped);
    for i := 0 to |singles|
      invariant Table(singles[..i], grouped)
      invariant forall key :: key in grouped ==>
                  exists s :: s in singles[..i] && s.package == key.0 && s.target == key.1
      invariant forall s :: s in singles[..i] ==> (s.package, s.target) in grouped
      invariant forall s :: s in singles[..i] && s.module_.None? ==> grouped[(s.package, s.target)].unfiltered
      invariant forall key :: key in grouped && grouped[key].unfiltered ==> Single(key.0, key.1, None) in singles[..i]
    {
      var s := singles[i];
      TableGrows(singles[..i], grouped, s);
      assert singles[..i + 1] == singles[..i] + [s];
      var key := (s.package, s.target);
      var entry := if key in grouped then grouped[key] else Entry(false, {});
      grouped := grouped[key := Added(entry, s.module_)];
    }
    assert singles[..|singles|] == singles;
  }

  /** `_group_single`: no selected test is lost and none is added, except that the two executables of the command
      line tool, when both are selected by modules, are run together under the filters of both. */
  method GroupSingle(singles: seq<Single>) returns (groups: set<Group>)
    ensures forall package, target, test :: Asked(singles, package, target, test) ==>
              Grouped(groups, package, target, test)
    ensures forall package, target, test :: Grouped(groups, package, target, test) ==>
              Asked(singles, package, target, test)
              || (PairTarget(package, target) && (Asked(singles, CLI, BIN, test) || Asked(singles, CLI, TESTS, test)))
    ensures !Merged(singles) ==>
              forall package, target, test :: Grouped(groups, package, target, test) ==>
                  Asked(singles, package, target, test)
    ensures Merged(singles) ==>
              forall target, test :: PairTarget(CLI, target) ==>
                (Grouped(groups, CLI, target, test) <==>
                    Asked(singles, CLI, BIN, test) || Asked(singles, CLI, TESTS, test))
  {
    var grouped := Tabulate(singles);
    if (CLI, BIN) in grouped && (CLI, TESTS) in grouped && !grouped[(CLI, BIN)].unfiltered
        && !grouped[(CLI, TESTS)].unfiltered {
      var left, right := grouped[(CLI, BIN)], grouped[(CLI, TESTS)];
      var both := Group(CLI, {BIN, TESTS}, Some(left.modules + right.modules));
      groups := GroupsOf(grouped - {(CLI, BIN), (CLI, TESTS)}) + {both};
      forall package, target, test
        ensures Grouped(groups, package, target, test) <==>
                  if PairTarget(package, target) then EntryRuns(left, test) || EntryRuns(right, test)
                  else (package, target) in grouped && EntryRuns(grouped[(package, target)], test)
      {
        MergeRuns(grouped, package, target, test);
      }
    } else {
      groups := GroupsOf(grouped);
      forall package, target, test
        ensures Grouped(groups, package, target, test) <==>
                  (package, target) in grouped && EntryRuns(grouped[(package, target)], test)
      {
        GroupsRun(grouped, package, target, test);
      }
    }
  }
}
