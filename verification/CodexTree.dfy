/**
 * `codex_tree`: untrusted thread logs are accepted only when they are completed threads that form
 * one tree, and then every thread's final counter is added exactly once.
 */
module CodexTree {
  import opened Lists
  import opened TokenUsage
  import opened ThreadForest

  /** One native log row, as far as the reader looks at it. */
  datatype Row =
    | Meta(id: Option<string>, qualified: bool, sameProject: bool, parent: Option<string>, agentPath: Option<string>)
    | SettingsApplied(thread: string)
    | TaskStarted(turn: Option<string>)
    | TaskComplete(turn: Option<string>)
    | TokenCount(info: Info)
    | SpawnCall(call: string)
    | CallOutput(call: string, taskName: Option<string>)
    | Other

  /** `info` of a token_count event: absent, without a usable total, or with counters. */
  datatype Info = NoInfo | BadInfo | Total(raw: RawUsage)

  /** `total_token_usage` before validation; an absent cache write counts as zero. */
  datatype RawUsage = RawUsage(input: Option<int>, output: Option<int>, cacheRead: Option<int>, cacheWrite: Option<int>)

  /** `counters` for Codex. */
  function Counters(raw: RawUsage): (u: Option<Usage>)
    ensures u.Some? <==>
              && raw.input.Some? && raw.input.value >= 0 && raw.output.Some? && raw.output.value >= 0
              && raw.cacheRead.Some? && 0 <= raw.cacheRead.value <= raw.input.value
              && (raw.cacheWrite.Some? ==> raw.cacheWrite.value >= 0)
    ensures u.Some? ==>
              && Some(u.value.input as int) == raw.input && Some(u.value.output as int) == raw.output
              && Some(u.value.cacheRead as int) == raw.cacheRead
              && (if raw.cacheWrite.Some? then Some(u.value.cacheWrite as int) == raw.cacheWrite
                  else u.value.cacheWrite == 0)
  {
    var write := if raw.cacheWrite.None? then Some(0) else raw.cacheWrite;
    if raw.input.None? || raw.output.None? || raw.cacheRead.None? then None
    else if raw.input.value < 0 || raw.output.value < 0 || raw.cacheRead.value < 0 || write.value < 0 then None
    else if raw.cacheRead.value > raw.input.value then None
    else Some(Usage(raw.input.value, raw.output.value, raw.cacheRead.value, write.value))
  }

  // ---------------------------------------------------------------- one thread log

  /** The counters of a log, in order; None when one is invalid. */
  function Totals(rows: seq<Row>): (t: Option<seq<Usage>>) {
    if rows == [] then Some([])
    else
      var before := Totals(rows[..|rows| - 1]);
      var row := rows[|rows| - 1];
      if before.None? then None
      else if !row.TokenCount? || row.info.NoInfo? then before
      else if row.info.BadInfo? then None
      else match Counters(row.info.raw)
        case None => None
        case Some(u) => Some(before.value + [u])
  }

  ghost predicate Monotone(us: seq<Usage>) {
    forall i, j :: 0 <= i <= j < |us| ==> AtMost(us[i], us[j])
  }

  /** The totals loop together with the backwards check between neighbours. */
  method ReadTotals(rows: seq<Row>) returns (r: Option<seq<Usage>>)
    ensures r.Some? <==> Totals(rows).Some? && Totals(rows).value != [] && Monotone(Totals(rows).value)
    ensures r.Some? ==> r == Totals(rows)
  {
    var parsed: seq<Usage>, good := [], true;
    for i := 0 to |rows|
      invariant good <==> Totals(rows[..i]).Some?
      invariant good ==> parsed == Totals(rows[..i]).value
    {
      assert rows[..i + 1][..i] == rows[..i];
      var row := rows[i];
      if good && row.TokenCount? && !row.info.NoInfo? {
        if row.info.BadInfo? || Counters(row.info.raw).None? {
          good := false;
        } else {
          parsed := parsed + [Counters(row.info.raw).value];
        }
      }
    }
    assert rows[..|rows|] == rows;
    if !good || parsed == [] {
      return None;
    }
    for i := 1 to |parsed|
      invariant forall a, b :: 0 <= a <= b < i ==> AtMost(parsed[a], parsed[b])
    {
      if !AtMost(parsed[i - 1], parsed[i]) {
        return None;
      }
    }
    return Some(parsed);
  }

  predicate ValidCounter(row: Row) {
    row.TokenCount? && row.info.Total? && Counters(row.info.raw).Some?
  }

  predicate InvalidCounter(row: Row) {
    row.TokenCount? && row.info.Total? && Counters(row.info.raw).None?
  }

  /** Row `j` completes the turn that row `i` started, with a counter in between. */
  ghost predicate Completes(rows: seq<Row>, i: int, j: int) {
    && 0 <= i < j < |rows| && rows[i].TaskStarted? && rows[i].turn.Some? && rows[j] == TaskComplete(rows[i].turn)
    && exists c :: i < c < j && ValidCounter(rows[c])
  }

  /** Row `k` fits the turn events before it. */
  ghost predicate RowFits(rows: seq<Row>, k: nat)
    requires k < |rows|
  {
    && !InvalidCounter(rows[k])
    && (rows[k].TaskStarted? ==>
          && rows[k].turn.Some?
          && forall i :: 0 <= i < k && rows[i].TaskStarted? ==> rows[i].turn != rows[k].turn)
    && (rows[k].TaskComplete? ==>
          && (exists i :: Completes(rows, i, k))
          && forall j :: 0 <= j < k && rows[j].TaskComplete? ==> rows[j].turn != rows[k].turn)
  }

  ghost predicate TurnsOrdered(rows: seq<Row>, k: nat)
    requires k <= |rows|
  {
    forall i :: 0 <= i < k ==> RowFits(rows, i)
  }

  /** A finished thread: at least one turn, and every started turn completed with its own counter. */
  ghost predicate TurnsComplete(rows: seq<Row>) {
    && TurnsOrdered(rows, |rows|)
    && (exists i :: 0 <= i < |rows| && rows[i].TaskStarted?)
    && (forall i :: 0 <= i < |rows| && rows[i].TaskStarted? ==> exists j :: Completes(rows, i, j))
  }

  /** The loop's tables after some rows. */
  datatype Turns = Turns(started: map<string, nat>, completed: set<string>, last: int)

  ghost predicate StartsListed(rows: seq<Row>, k: nat, started: map<string, nat>)
    requires k <= |rows|
  {
    && (forall t :: t in started ==> started[t] < k && rows[started[t]] == TaskStarted(Some(t)))
    && (forall i :: 0 <= i < k && rows[i].TaskStarted? && rows[i].turn.Some? ==> rows[i].turn.value in started)
  }

  ghost predicate CompletionsListed(rows: seq<Row>, k: nat, completed: set<string>)
    requires k <= |rows|
  {
    forall t :: t in completed <==> exists j :: 0 <= j < k && rows[j] == TaskComplete(Some(t))
  }

  ghost predicate LastCounter(rows: seq<Row>, k: nat, last: int)
    requires k <= |rows|
  {
    -1 <= last < k && (last >= 0 ==> ValidCounter(rows[last])) && forall c :: last < c < k ==> !ValidCounter(rows[c])
  }

  ghost predicate Tables(rows: seq<Row>, k: nat, t: Turns)
    requires k <= |rows|
  {
    StartsListed(rows, k, t.started) && CompletionsListed(rows, k, t.completed) && LastCounter(rows, k, t.last)
  }

  /** Whether the tables admit row `k`. */
  predicate Admits(t: Turns, row: Row) {
    match row
    case TaskStarted(turn) => turn.Some? && turn.value !in t.started
    case TaskComplete(turn) =>
      turn.Some? && turn.value in t.started && turn.value !in t.completed && t.last >= t.started[turn.value]
    case TokenCount(info) => info.Total? ==> Counters(info.raw).Some?
    case _ => true
  }

  function Update(t: Turns, row: Row, k: nat): (u: Turns) {
    match row
    case TaskStarted(turn) => if turn.Some? then t.(started := t.started[turn.value := k]) else t
    case TaskComplete(turn) => if turn.Some? then t.(completed := t.completed + {turn.value}) else t
    case TokenCount(info) => if info.Total? && Counters(info.raw).Some? then t.(last := k) else t
    case _ => t
  }

  lemma UpdateKeeps(rows: seq<Row>, k: nat, t: Turns)
    requires k < |rows| && Tables(rows, k, t) && Admits(t, rows[k])
    ensures Tables(rows, k + 1, Update(t, rows[k], k))
  {
    var u := Update(t, rows[k], k);
    assert StartsListed(rows, k + 1, u.started);
    assert CompletionsListed(rows, k + 1, u.completed);
  }

  /** The tables admit a row exactly when it fits. */
  lemma AdmitsExactly(rows: seq<Row>, k: nat, t: Turns)
    requires k < |rows| && Tables(rows, k, t) && TurnsOrdered(rows, k)
    ensures Admits(t, rows[k]) <==> RowFits(rows, k)
  {
    match rows[k]
    case TaskStarted(turn) =>
      if turn.Some? && turn.value in t.started {
        assert rows[t.started[turn.value]].turn == turn;
      }
    case TaskComplete(turn) =>
      CompletionFits(rows, k, t);
    case _ =>
  }

  lemma CompletionFits(rows: seq<Row>, k: nat, t: Turns)
    requires k < |rows| && rows[k].TaskComplete? && Tables(rows, k, t) && TurnsOrdered(rows, k)
    ensures Admits(t, rows[k]) <==> RowFits(rows, k)
  {
    var turn := rows[k].turn;
    if Admits(t, rows[k]) {
      assert ValidCounter(rows[t.last]);
      assert Completes(rows, t.started[turn.value], k);
    }
    if i :| Completes(rows, i, k) {
      StartIsUnique(rows, k, t, i);
      var c :| i < c < k && ValidCounter(rows[c]);
      assert c <= t.last;
    }
  }

  /** A start is listed under its own position, because no other row starts the same turn. */
  lemma StartIsUnique(rows: seq<Row>, k: nat, t: Turns, i: nat)
    requires k <= |rows| && StartsListed(rows, k, t.started) && TurnsOrdered(rows, k)
    requires i < k && rows[i].TaskStarted? && rows[i].turn.Some?
    ensures rows[i].turn.value in t.started && t.started[rows[i].turn.value] == i
  {
    var j := t.started[rows[i].turn.value];
    assert RowFits(rows, i) && RowFits(rows, j);
  }

  /** The turn loop accepts exactly the finished threads. */
  method ReadTurns(rows: seq<Row>) returns (ok: bool)
    ensures ok <==> TurnsComplete(rows)
  {
    var t := Turns(map[], {}, -1);
    for k := 0 to |rows|
      invariant TurnsOrdered(rows, k) && Tables(rows, k, t)
    {
      AdmitsExactly(rows, k, t);
      if !Admits(t, rows[k]) {
        return false;
      }
      UpdateKeeps(rows, k, t);
      t := Update(t, rows[k], k);
    }
    AllCompleted(rows, t);
    ok := t.started != map[] && t.started.Keys == t.completed;
  }

  lemma AllCompleted(rows: seq<Row>, t: Turns)
    requires TurnsOrdered(rows, |rows|) && Tables(rows, |rows|, t)
    ensures t.started != map[] && t.started.Keys == t.completed <==> TurnsComplete(rows)
  {
    if t.started != map[] && t.started.Keys == t.completed {
      var s :| s in t.started;
      assert rows[t.started[s]].TaskStarted?;
      forall i | 0 <= i < |rows| && rows[i].TaskStarted?
        ensures exists j :: Completes(rows, i, j)
      {
        StartHasCompletion(rows, t, i);
      }
    }
    if TurnsComplete(rows) {
      var i :| 0 <= i < |rows| && rows[i].TaskStarted?;
      assert RowFits(rows, i);
      StartIsUnique(rows, |rows|, t, i);
      CompleteKeys(rows, t);
    }
  }

  lemma StartHasCompletion(rows: seq<Row>, t: Turns, i: nat)
    requires TurnsOrdered(rows, |rows|) && Tables(rows, |rows|, t) && t.started.Keys <= t.completed
    requires i < |rows| && rows[i].TaskStarted?
    ensures exists j :: Completes(rows, i, j)
  {
    assert RowFits(rows, i);
    StartIsUnique(rows, |rows|, t, i);
    var turn := rows[i].turn.value;
    var j :| 0 <= j < |rows| && rows[j] == TaskComplete(Some(turn));
    assert RowFits(rows, j);
    var m :| Completes(rows, m, j);
    StartIsUnique(rows, |rows|, t, m);
  }

  lemma CompleteKeys(rows: seq<Row>, t: Turns)
    requires TurnsComplete(rows) && Tables(rows, |rows|, t)
    ensures t.started.Keys == t.completed
  {
    forall s | s in t.started
      ensures s in t.completed
    {
      var j :| Completes(rows, t.started[s], j);
    }
    forall s | s in t.completed
      ensures s in t.started
    {
      var j :| 0 <= j < |rows| && rows[j] == TaskComplete(Some(s));
      assert RowFits(rows, j);
      var i :| Completes(rows, i, j);
    }
  }

  // ---------------------------------------------------------------- one thread log as a node

  /** Positions where the thread's own settings were applied. */
  function Boundaries(rows: seq<Row>, thread: string, k: nat): (at: seq<nat>)
    requires k <= |rows|
    ensures forall i :: 0 <= i < |at| ==> at[i] < |rows|
  {
    if k == 0 then []
    else Boundaries(rows, thread, k - 1) + (if rows[k - 1] == SettingsApplied(thread) then [k - 1] else [])
  }

  predicate SecondMeta(rows: seq<Row>) {
    exists i :: 1 <= i < |rows| && rows[i].Meta?
  }

  /** The rows of the thread's own execution: a fork's inherited history is cut at its one boundary. */
  function OwnRows(rows: seq<Row>): (own: Option<seq<Row>>)
    requires rows != [] && rows[0].Meta? && rows[0].id.Some?
  {
    if !SecondMeta(rows) then Some(rows)
    else
      var at := Boundaries(rows, rows[0].id.value, |rows|);
      if |at| != 1 then None else Some(rows[at[0]..])
  }

  /** `own` is what the thread itself ran: everything without a second header, and otherwise what follows the one place
      where its own settings were applied. */
  ghost predicate OwnIs(rows: seq<Row>, own: seq<Row>)
    requires rows != [] && rows[0].Meta? && rows[0].id.Some?
  {
    if forall i :: 0 < i < |rows| ==> !rows[i].Meta? then own == rows
    else exists b :: 0 <= b < |rows| && own == rows[b..] && OnlyBoundary(rows, b)
  }

  ghost predicate OnlyBoundary(rows: seq<Row>, b: nat)
    requires rows != [] && rows[0].Meta? && rows[0].id.Some?
  {
    forall i :: 0 <= i < |rows| ==> (rows[i] == SettingsApplied(rows[0].id.value) <==> i == b)
  }

  lemma {:induction false} BoundariesExactly(rows: seq<Row>, thread: string, k: nat)
    requires k <= |rows|
    ensures forall i :: i in Boundaries(rows, thread, k) <==> 0 <= i < k && rows[i] == SettingsApplied(thread)
    ensures forall i, j :: 0 <= i < j < |Boundaries(rows, thread, k)| ==>
                           Boundaries(rows, thread, k)[i] < Boundaries(rows, thread, k)[j]
  {
    if k > 0 {
      var before := Boundaries(rows, thread, k - 1);
      BoundariesExactly(rows, thread, k - 1);
      assert forall i :: 0 <= i < |before| ==> before[i] in before;
    }
  }

  lemma OwnRowsExactly(rows: seq<Row>, own: seq<Row>)
    requires rows != [] && rows[0].Meta? && rows[0].id.Some?
    ensures OwnRows(rows) == Some(own) <==> OwnIs(rows, own)
  {
    var thread := rows[0].id.value;
    var at := Boundaries(rows, thread, |rows|);
    BoundariesExactly(rows, thread, |rows|);
    assert SecondMeta(rows) <==> !forall i :: 0 < i < |rows| ==> !rows[i].Meta?;
    if SecondMeta(rows) {
      if |at| == 1 {
        assert at[0] in at;
        assert forall i :: i in at ==> i == at[0];
        assert OnlyBoundary(rows, at[0]);
      }
      if b :| 0 <= b < |rows| && OnlyBoundary(rows, b) {
        OneBoundary(rows, b, at);
      }
    }
  }

  lemma OneBoundary(rows: seq<Row>, b: nat, at: seq<nat>)
    requires rows != [] && rows[0].Meta? && rows[0].id.Some? && b < |rows| && OnlyBoundary(rows, b)
    requires forall i :: i in at <==> 0 <= i < |rows| && rows[i] == SettingsApplied(rows[0].id.value)
    requires forall i, j :: 0 <= i < j < |at| ==> at[i] < at[j]
    ensures at == [b]
  {
    assert b in at;
    forall i | 0 <= i < |at|
      ensures at[i] == b
    {
      assert at[i] in at;
      assert rows[at[i]] == SettingsApplied(rows[0].id.value) <==> at[i] == b;
    }
    FirstTwoDiffer(at);
  }

  lemma FirstTwoDiffer(at: seq<nat>)
    requires forall i, j :: 0 <= i < j < |at| ==> at[i] < at[j]
    ensures |at| > 1 ==> at[0] != at[1]
  {
  }

  /** Names of the spawns that answered, with the calls seen so far. */
  function SpawnsUpTo(rows: seq<Row>, k: nat): (r: (set<string>, seq<string>))
    requires k <= |rows|
  {
    if k == 0 then ({}, [])
    else
      var (calls, names) := SpawnsUpTo(rows, k - 1);
      match rows[k - 1]
      case SpawnCall(call) => (calls + {call}, names)
      case CallOutput(call, name) => (calls, if call in calls && name.Some? then names + [name.value] else names)
      case _ => (calls, names)
  }

  predicate Heads(rows: seq<Row>) {
    rows != [] && rows[0].Meta? && rows[0].qualified && rows[0].id.Some? && rows[0].sameProject
  }

  /** A log the reader accepts: qualified header, own rows of a finished thread, counters that only grow. */
  ghost predicate Acceptable(rows: seq<Row>) {
    && rows != [] && rows[0].Meta? && rows[0].id.Some? && rows[0].qualified && rows[0].sameProject
    && OwnRows(rows).Some?
    && var own := OwnRows(rows).value;
       && TurnsComplete(own) && Totals(own).Some? && Totals(own).value != [] && Monotone(Totals(own).value)
  }

  /** The node of an accepted log; its usage is the last counter, which no other counter exceeds. */
  ghost predicate NodeOf(rows: seq<Row>, n: Node)
    requires Acceptable(rows)
  {
    var own := OwnRows(rows).value;
    var totals := Totals(own).value;
    && n.session == rows[0].id.value && n.parent == rows[0].parent && n.agentPath == rows[0].agentPath
    && n.spawned == SpawnsUpTo(own, |own|).1
    && n.usage in totals && forall i :: 0 <= i < |totals| ==> AtMost(totals[i], n.usage)
  }

  method ReadLog(rows: seq<Row>) returns (r: Option<Node>)
    ensures r.Some? <==> Acceptable(rows)
    ensures r.Some? ==> NodeOf(rows, r.value)
  {
    if !Heads(rows) || OwnRows(rows).None? {
      return None;
    }
    var own := OwnRows(rows).value;
    var finished := ReadTurns(own);
    if !finished {
      return None;
    }
    var totals := ReadTotals(own);
    if totals.None? {
      return None;
    }
    var calls: set<string>, spawned: seq<string> := {}, [];
    for k := 0 to |own|
      invariant (calls, spawned) == SpawnsUpTo(own, k)
    {
      match own[k] {
        case SpawnCall(call) => calls := calls + {call};
        case CallOutput(call, name) =>
          if call in calls && name.Some? {
            spawned := spawned + [name.value];
          }
        case _ =>
      }
    }
    var last := totals.value[|totals.value| - 1];
    r := Some(Node(rows[0].id.value, rows[0].parent, rows[0].agentPath, spawned, last));
  }

  // ---------------------------------------------------------------- the whole tree

  function Usages(nodes: seq<Node>): (us: seq<Usage>)
    ensures |us| == |nodes| && forall i :: 0 <= i < |nodes| ==> us[i] == nodes[i].usage
  {
    seq(|nodes|, i requires 0 <= i < |nodes| => nodes[i].usage)
  }

  /** The nodes are those of the logs, in order. */
  ghost predicate NodesOf(logs: seq<seq<Row>>, nodes: seq<Node>) {
    |nodes| == |logs| && forall i :: 0 <= i < |logs| ==> Acceptable(logs[i]) && NodeOf(logs[i], nodes[i])
  }

  /** Reading every log; a repeated thread id is refused. */
  method ReadLogs(logs: seq<seq<Row>>) returns (r: Option<seq<Node>>)
    ensures r.Some? ==> NodesOf(logs, r.value) && DistinctSessions(r.value)
    ensures r.None? ==> || (exists i :: 0 <= i < |logs| && !Acceptable(logs[i]))
                        || (exists i, j :: 0 <= i < j < |logs| && logs[i] != [] && logs[j] != []
                                           && logs[i][0].Meta? && logs[j][0].Meta? && logs[i][0].id == logs[j][0].id)
  {
    var nodes: seq<Node> := [];
    for k := 0 to |logs|
      invariant NodesOf(logs[..k], nodes) && DistinctSessions(nodes)
    {
      var n := ReadLog(logs[k]);
      if n.None? {
        return None;
      }
      for j := 0 to k
        invariant forall m :: 0 <= m < j ==> nodes[m].session != n.value.session
      {
        if nodes[j].session == n.value.session {
          assert Acceptable(logs[..k][j]) && NodeOf(logs[..k][j], nodes[j]);
          assert logs[j][0].id == logs[k][0].id;
          return None;
        }
      }
      assert forall i :: 0 <= i < k ==> logs[..k + 1][i] == logs[..k][i];
      nodes := nodes + [n.value];
    }
    assert logs[..|logs|] == logs;
    r := Some(nodes);
  }

  predicate Falsy(parent: Option<string>) {
    parent.None? || parent.value == ""
  }

  datatype Answer = Unobserved | Observed(total: Usage, nodes: seq<Node>)

  /** What an observed answer rests on. */
  ghost predicate Accounted(logs: seq<seq<Row>>, root: string, stdout: Usage, nodes: seq<Node>) {
    && NodesOf(logs, nodes) && DistinctSessions(nodes) && RootedTree(nodes, root) && AllMatch(nodes)
    && ParentOf(nodes, root) in {None, Some("")} && Lookup(nodes, root).value.usage == stdout
  }

  /**
   * `codex_tree`. Observed: the logs are finished threads forming one tree rooted at `root` whose
   * spawns match its children, the root agrees with stdout, and the total adds every thread once.
   */
  method CodexTotal(logs: seq<seq<Row>>, root: string, stdout: Usage) returns (r: Answer)
    ensures r.Observed? ==> Accounted(logs, root, stdout, r.nodes) && AddsUp(Usages(r.nodes), r.total)
    ensures r.Unobserved? ==> forall nodes :: !Accounted(logs, root, stdout, nodes)
  {
    var read := ReadLogs(logs);
    if read.None? {
      forall nodes: seq<Node> | NodesOf(logs, nodes) && DistinctSessions(nodes)
        ensures false
      {
        SameIds(logs, nodes);
      }
      return Unobserved;
    }
    var nodes := read.value;
    forall other | Accounted(logs, root, stdout, other)
      ensures other == nodes
    {
      NodesAreDetermined(logs, nodes, other);
    }
    var top := Lookup(nodes, root);
    if top.None? || !Falsy(top.value.parent) || top.value.usage != stdout {
      return Unobserved;
    }
    var tree := VisitAll(nodes, root);
    if !tree {
      return Unobserved;
    }
    SumAddsUp(Usages(nodes), Sum(Usages(nodes)));
    r := Observed(Sum(Usages(nodes)), nodes);
  }

  lemma SameIds(logs: seq<seq<Row>>, nodes: seq<Node>)
    requires NodesOf(logs, nodes) && DistinctSessions(nodes)
    ensures forall i, j :: 0 <= i < j < |logs| ==> logs[i][0].id != logs[j][0].id
  {
    forall i, j | 0 <= i < j < |logs|
      ensures logs[i][0].id != logs[j][0].id
    {
      assert NodeOf(logs[i], nodes[i]) && NodeOf(logs[j], nodes[j]);
    }
  }

  /** The final counter is the component-wise maximum, so a log determines its node. */
  lemma NodesAreDetermined(logs: seq<seq<Row>>, a: seq<Node>, b: seq<Node>)
    requires NodesOf(logs, a) && NodesOf(logs, b)
    ensures a == b
  {
    forall i | 0 <= i < |logs|
      ensures a[i] == b[i]
    {
      assert NodeOf(logs[i], a[i]) && NodeOf(logs[i], b[i]);
      var totals := Totals(OwnRows(logs[i]).value).value;
      var j :| 0 <= j < |totals| && totals[j] == a[i].usage;
      var k :| 0 <= k < |totals| && totals[k] == b[i].usage;
    }
  }
}
