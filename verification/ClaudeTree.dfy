/**
 * `claude_owned_tree`: Agent calls, their results, child identities and child transcripts must be
 * in bijection before the pipeline's token total is believed.
 */
module ClaudeTree {
  import opened Lists
  import opened TokenUsage

  datatype ResultStatus = Completed | AsyncLaunched | OtherStatus

  /** A `tool_use_result` that names an agent. */
  datatype AgentResult = AgentResult(agent: string, status: ResultStatus, isAsync: bool)

  /** What the linkage loop looks at, in order: one row gives a session check, a binding and its items. */
  datatype Event =
    | Foreign                                    // a user or assistant row of another session
    | Bind(call: string, agent: string)          // parent_tool_use_id with agent_id
    | Call(id: Option<string>)                   // an Agent tool_use
    | Answer(to: Option<string>, isError: bool, result: Option<AgentResult>)

  datatype Item = AgentUse(id: Option<string>) | ToolResult(to: Option<string>, isError: bool) | OtherItem

  datatype Row = Row(conversational: bool, ownSession: bool, parentCall: Option<string>, agent: Option<string>,
                     items: seq<Item>, result: Option<AgentResult>)

  function ItemEvents(items: seq<Item>, result: Option<AgentResult>): (es: seq<Event>) {
    if items == [] then []
    else
      (match items[0]
       case AgentUse(id) => [Call(id)]
       case ToolResult(to, isError) => [Answer(to, isError, result)]
       case OtherItem => []) + ItemEvents(items[1..], result)
  }

  function RowEvents(row: Row): (es: seq<Event>) {
    (if row.conversational && !row.ownSession then [Foreign] else [])
    + (if row.parentCall.Some? && row.agent.Some? then [Bind(row.parentCall.value, row.agent.value)] else [])
    + ItemEvents(row.items, row.result)
  }

  function Events(rows: seq<Row>): (es: seq<Event>) {
    if rows == [] then [] else RowEvents(rows[0]) + Events(rows[1..])
  }

  // ---------------------------------------------------------------- background agents

  datatype Start = Start(task: string, run: Option<string>)
  datatype Done = Done(task: string, completed: bool, run: Option<string>)
  datatype Background = Background(starts: map<string, Start>, notes: map<string, Done>)

  datatype SystemRow = Started(call: string, start: Start) | Notified(call: string, done: Done)

  ghost predicate NoRepeats(rows: seq<SystemRow>) {
    && (forall i, j :: 0 <= i < j < |rows| && rows[i].Started? && rows[j].Started? ==> rows[i].call != rows[j].call)
    && (forall i, j :: 0 <= i < j < |rows| && rows[i].Notified? && rows[j].Notified? ==> rows[i].call != rows[j].call)
  }

  /** `b` lists the starts and completions of the system rows by call. */
  ghost predicate BackgroundOf(rows: seq<SystemRow>, b: Background) {
    && (forall c, s :: c in b.starts && b.starts[c] == s <==> Started(c, s) in rows)
    && (forall c, d :: c in b.notes && b.notes[c] == d <==> Notified(c, d) in rows)
  }

  /** Starts and completions of background agents by call; a repeat is refused. */
  method ReadBackground(rows: seq<SystemRow>) returns (r: Option<Background>)
    ensures r.Some? <==> NoRepeats(rows)
    ensures r.Some? ==> BackgroundOf(rows, r.value)
  {
    var b := Background(map[], map[]);
    for k := 0 to |rows|
      invariant NoRepeats(rows[..k])
      invariant BackgroundOf(rows[..k], b)
    {
      assert rows[..k + 1] == rows[..k] + [rows[k]];
      match rows[k] {
        case Started(c, s) =>
          if c in b.starts {
            assert Started(c, b.starts[c]) in rows[..k];
            return None;
          }
          b := b.(starts := b.starts[c := s]);
        case Notified(c, d) =>
          if c in b.notes {
            assert Notified(c, b.notes[c]) in rows[..k];
            return None;
          }
          b := b.(notes := b.notes[c := d]);
      }
    }
    assert rows[..|rows|] == rows;
    r := Some(b);
  }

  /** The result of a call is final: completed, or launched in the background and seen to complete. */
  predicate Finished(b: Background, call: string, r: AgentResult) {
    match r.status
    case Completed => true
    case OtherStatus => false
    case AsyncLaunched =>
      && r.isAsync && call in b.starts && b.starts[call].task == r.agent
      && call in b.notes && b.notes[call].task == r.agent && b.notes[call].completed
      && b.starts[call].run.Some? && b.starts[call].run.value != "" && b.notes[call].run == b.starts[call].run
  }

  /** The agent completed at once, or it was launched in the background and one run of it was started and completed. */
  ghost predicate SeenToEnd(b: Background, call: string, r: AgentResult) {
    || r.status == Completed
    || (r.status == AsyncLaunched && r.isAsync && exists run :: run != "" && RanInBackground(b, call, r.agent, run))
  }

  ghost predicate RanInBackground(b: Background, call: string, agent: string, run: string) {
    && call in b.starts && b.starts[call] == Start(agent, Some(run))
    && call in b.notes && b.notes[call] == Done(agent, true, Some(run))
  }

  lemma FinishedExactly(b: Background, call: string, r: AgentResult)
    ensures Finished(b, call, r) <==> SeenToEnd(b, call, r)
  {
    if Finished(b, call, r) && r.status == AsyncLaunched {
      assert RanInBackground(b, call, r.agent, b.starts[call].run.value);
    }
  }

  /** An event of a row: another session spoke, an agent was bound to a call, or one of its items. */
  ghost predicate EventOf(row: Row, e: Event) {
    match e
    case Foreign => row.conversational && !row.ownSession
    case Bind(call, agent) => row.parentCall == Some(call) && row.agent == Some(agent)
    case Call(id) => AgentUse(id) in row.items
    case Answer(to, isError, result) => ToolResult(to, isError) in row.items && result == row.result
  }

  lemma {:induction false} ItemsAreEvents(items: seq<Item>, result: Option<AgentResult>, e: Event)
    ensures e in ItemEvents(items, result) <==>
            match e
            case Call(id) => AgentUse(id) in items
            case Answer(to, isError, r) => ToolResult(to, isError) in items && r == result
            case _ => false
  {
    if items != [] {
      ItemsAreEvents(items[1..], result, e);
      assert items == [items[0]] + items[1..];
    }
  }

  /** The events are exactly those of the rows. */
  lemma {:induction false} EventsExactly(rows: seq<Row>, e: Event)
    ensures e in Events(rows) <==> exists row :: row in rows && EventOf(row, e)
  {
    if rows != [] {
      EventsExactly(rows[1..], e);
      ItemsAreEvents(rows[0].items, rows[0].result, e);
      assert e in RowEvents(rows[0]) <==> EventOf(rows[0], e);
      assert rows == [rows[0]] + rows[1..];
    }
  }

  // ---------------------------------------------------------------- linkage

  /** Event `j` answers call `c`: the call was made before it. */
  ghost predicate Answers(es: seq<Event>, j: int, c: string) {
    0 <= j < |es| && es[j].Answer? && es[j].to == Some(c) && exists i :: 0 <= i < j && es[i] == Call(Some(c))
  }

  /** Event `i` names `a` as the agent of call `c`. */
  ghost predicate Names(es: seq<Event>, i: int, c: string, a: string) {
    0 <= i < |es| && (es[i] == Bind(c, a) || (Answers(es, i, c) && es[i].result.Some? && es[i].result.value.agent == a))
  }

  /** No event before `k` names another agent for `c`. */
  ghost predicate Agrees(es: seq<Event>, k: int, c: string, a: string) {
    forall i, x :: 0 <= i < k && Names(es, i, c, x) ==> x == a
  }

  /** Event `k` fits what came before it. */
  ghost predicate EventFits(b: Background, es: seq<Event>, k: nat)
    requires k < |es|
  {
    match es[k]
    case Foreign => false
    case Bind(c, a) => Agrees(es, k, c, a)
    case Call(id) => id.Some? && forall i :: 0 <= i < k ==> es[i] != Call(id)
    case Answer(to, isError, result) =>
      to.Some? && Answers(es, k, to.value) ==>
        && !isError && (forall j :: 0 <= j < k ==> !Answers(es, j, to.value))
        && (result.Some? ==> Finished(b, to.value, result.value) && Agrees(es, k, to.value, result.value.agent))
  }

  datatype Links = Links(calls: set<string>, answered: set<string>, bindings: map<string, string>)

  ghost predicate CallsListed(es: seq<Event>, k: nat, calls: set<string>)
    requires k <= |es|
  {
    forall c :: c in calls <==> exists i :: 0 <= i < k && es[i] == Call(Some(c))
  }

  ghost predicate AnswersListed(es: seq<Event>, k: nat, answered: set<string>)
    requires k <= |es|
  {
    forall c :: c in answered <==> exists j :: 0 <= j < k && Answers(es, j, c)
  }

  ghost predicate NamesListed(es: seq<Event>, k: nat, bindings: map<string, string>)
    requires k <= |es|
  {
    && (forall c :: c in bindings ==> exists i :: 0 <= i < k && Names(es, i, c, bindings[c]))
    && (forall i, c, a :: 0 <= i < k && Names(es, i, c, a) ==> c in bindings && bindings[c] == a)
  }

  ghost predicate Tables(es: seq<Event>, k: nat, l: Links)
    requires k <= |es|
  {
    CallsListed(es, k, l.calls) && AnswersListed(es, k, l.answered) && NamesListed(es, k, l.bindings)
  }

  predicate Free(l: Links, c: string, a: string) {
    c in l.bindings ==> l.bindings[c] == a
  }

  predicate Admits(b: Background, l: Links, e: Event) {
    match e
    case Foreign => false
    case Bind(c, a) => Free(l, c, a)
    case Call(id) => id.Some? && id.value !in l.calls
    case Answer(to, isError, result) =>
      to.Some? && to.value in l.calls ==>
        && to.value !in l.answered && !isError
        && (result.Some? ==> Finished(b, to.value, result.value) && Free(l, to.value, result.value.agent))
  }

  function Update(l: Links, e: Event): (m: Links) {
    match e
    case Foreign => l
    case Bind(c, a) => l.(bindings := l.bindings[c := a])
    case Call(id) => if id.Some? then l.(calls := l.calls + {id.value}) else l
    case Answer(to, _, result) =>
      if to.Some? && to.value in l.calls then
        l.(answered := l.answered + {to.value},
           bindings := if result.Some? then l.bindings[to.value := result.value.agent] else l.bindings)
      else l
  }

  lemma AnswersExactly(es: seq<Event>, k: nat, l: Links, c: string)
    requires k < |es| && CallsListed(es, k, l.calls) && es[k].Answer? && es[k].to == Some(c)
    ensures Answers(es, k, c) <==> c in l.calls
  {
  }

  lemma FreeExactly(es: seq<Event>, k: nat, l: Links, c: string, a: string)
    requires k <= |es| && NamesListed(es, k, l.bindings)
    ensures Free(l, c, a) <==> Agrees(es, k, c, a)
  {
    if c in l.bindings {
      var i :| 0 <= i < k && Names(es, i, c, l.bindings[c]);
    }
  }

  /** The tables admit an event exactly when it fits. */
  lemma AdmitsExactly(b: Background, es: seq<Event>, k: nat, l: Links)
    requires k < |es| && Tables(es, k, l)
    ensures Admits(b, l, es[k]) <==> EventFits(b, es, k)
  {
    match es[k]
    case Foreign =>
    case Bind(c, a) => FreeExactly(es, k, l, c, a);
    case Call(id) =>
    case Answer(to, isError, result) =>
      if to.Some? {
        AnswersExactly(es, k, l, to.value);
        if result.Some? {
          FreeExactly(es, k, l, to.value, result.value.agent);
        }
      }
  }

  lemma CallsUpdate(es: seq<Event>, k: nat, l: Links)
    requires k < |es| && CallsListed(es, k, l.calls)
    ensures CallsListed(es, k + 1, Update(l, es[k]).calls)
  {
  }

  lemma AnswersUpdate(es: seq<Event>, k: nat, l: Links)
    requires k < |es| && CallsListed(es, k, l.calls) && AnswersListed(es, k, l.answered)
    ensures AnswersListed(es, k + 1, Update(l, es[k]).answered)
  {
    if es[k].Answer? && es[k].to.Some? {
      AnswersExactly(es, k, l, es[k].to.value);
    }
  }

  lemma NamesUpdate(b: Background, es: seq<Event>, k: nat, l: Links)
    requires k < |es| && CallsListed(es, k, l.calls) && NamesListed(es, k, l.bindings) && Admits(b, l, es[k])
    ensures NamesListed(es, k + 1, Update(l, es[k]).bindings)
  {
    var m := Update(l, es[k]).bindings;
    if es[k].Answer? && es[k].to.Some? {
      AnswersExactly(es, k, l, es[k].to.value);
    }
    forall c | c in m
      ensures exists i :: 0 <= i < k + 1 && Names(es, i, c, m[c])
    {
      if c in l.bindings && l.bindings[c] == m[c] {
        var i :| 0 <= i < k && Names(es, i, c, l.bindings[c]);
      } else {
        assert Names(es, k, c, m[c]);
      }
    }
  }

  ghost predicate AllFit(b: Background, es: seq<Event>, k: nat)
    requires k <= |es|
  {
    forall i :: 0 <= i < k ==> EventFits(b, es, i)
  }

  /** The linkage loop: succeeds exactly when every event fits, and its tables list what was seen. */
  method Link(b: Background, es: seq<Event>) returns (r: Option<Links>)
    ensures r.Some? <==> AllFit(b, es, |es|)
    ensures r.Some? ==> Tables(es, |es|, r.value)
  {
    var l := Links({}, {}, map[]);
    for k := 0 to |es|
      invariant AllFit(b, es, k) && Tables(es, k, l)
    {
      AdmitsExactly(b, es, k, l);
      if !Admits(b, l, es[k]) {
        return None;
      }
      CallsUpdate(es, k, l);
      AnswersUpdate(es, k, l);
      NamesUpdate(b, es, k, l);
      l := Update(l, es[k]);
    }
    r := Some(l);
  }

  // ---------------------------------------------------------------- the bijection

  /** Every call made is answered exactly once, names one agent, and no agent serves two calls. */
  ghost predicate Bijective(b: Background, es: seq<Event>, agentOf: map<string, string>) {
    && (forall i :: 0 <= i < |es| ==> !es[i].Foreign? && (es[i].Call? ==> es[i].id.Some?))
    && (forall c :: c in agentOf <==> exists i :: 0 <= i < |es| && es[i] == Call(Some(c)))
    && (forall c :: c in agentOf ==> AnsweredOnce(b, es, c))
    && NamesListed(es, |es|, agentOf)
    && (forall c, d :: c in agentOf && d in agentOf && agentOf[c] == agentOf[d] ==> c == d)
  }

  /** One call, one later answer that is no error, and a finished agent if it names one. */
  ghost predicate AnsweredOnce(b: Background, es: seq<Event>, c: string) {
    && (forall i, j :: 0 <= i < j < |es| ==> !(es[i] == Call(Some(c)) && es[j] == Call(Some(c))))
    && exists j :: Answers(es, j, c) && !es[j].isError && (es[j].result.Some? ==> Finished(b, c, es[j].result.value))
                   && forall i :: Answers(es, i, c) ==> i == j
  }

  lemma OnceAnswered(b: Background, es: seq<Event>, c: string)
    requires AllFit(b, es, |es|) && exists j :: Answers(es, j, c)
    ensures AnsweredOnce(b, es, c)
  {
    var j :| Answers(es, j, c);
    assert EventFits(b, es, j);
    forall i | Answers(es, i, c)
      ensures i == j
    {
      assert EventFits(b, es, i);
    }
    forall i, k | 0 <= i < k < |es|
      ensures !(es[i] == Call(Some(c)) && es[k] == Call(Some(c)))
    {
      assert EventFits(b, es, k);
    }
  }

  lemma CallsHaveIds(b: Background, es: seq<Event>)
    requires AllFit(b, es, |es|)
    ensures forall i :: 0 <= i < |es| ==> !es[i].Foreign? && (es[i].Call? ==> es[i].id.Some?)
  {
    forall i | 0 <= i < |es|
      ensures !es[i].Foreign? && (es[i].Call? ==> es[i].id.Some?)
    {
      assert EventFits(b, es, i);
    }
  }

  lemma AllAnsweredOnce(b: Background, es: seq<Event>, l: Links)
    requires AllFit(b, es, |es|) && AnswersListed(es, |es|, l.answered)
    ensures forall c :: c in l.answered ==> AnsweredOnce(b, es, c)
  {
    forall c | c in l.answered
      ensures AnsweredOnce(b, es, c)
    {
      OnceAnswered(b, es, c);
    }
  }

  lemma LinkedIsBijective(b: Background, es: seq<Event>, l: Links)
    requires AllFit(b, es, |es|) && Tables(es, |es|, l)
    requires l.calls == l.answered && l.bindings.Keys == l.calls
    requires |l.bindings.Values| == |l.calls|
    ensures Bijective(b, es, l.bindings)
  {
    CallsHaveIds(b, es);
    AllAnsweredOnce(b, es, l);
    SameSizeIsInjective(l.bindings);
    BijectiveFrom(b, es, l);
  }

  lemma BijectiveFrom(b: Background, es: seq<Event>, l: Links)
    requires Tables(es, |es|, l) && l.calls == l.answered && l.bindings.Keys == l.calls
    requires forall i :: 0 <= i < |es| ==> !es[i].Foreign? && (es[i].Call? ==> es[i].id.Some?)
    requires forall c :: c in l.answered ==> AnsweredOnce(b, es, c)
    requires forall c, d :: c in l.bindings && d in l.bindings && l.bindings[c] == l.bindings[d] ==> c == d
    ensures Bijective(b, es, l.bindings)
  {
    assert forall c :: c in l.bindings <==> c in l.calls;
  }

  /** The other way round: bijective linkage makes every event fit. */
  lemma BijectiveFits(b: Background, es: seq<Event>, agentOf: map<string, string>, k: nat)
    requires Bijective(b, es, agentOf) && k < |es|
    ensures EventFits(b, es, k)
  {
    match es[k]
    case Foreign =>
    case Bind(c, a) =>
      assert Names(es, k, c, a);
    case Call(id) =>
      assert AnsweredOnce(b, es, id.value);
    case Answer(to, isError, result) =>
      if to.Some? && Answers(es, k, to.value) {
        AnswerFits(b, es, agentOf, k, to.value);
      }
  }

  lemma AnswerFits(b: Background, es: seq<Event>, agentOf: map<string, string>, k: nat, c: string)
    requires Bijective(b, es, agentOf) && Answers(es, k, c)
    ensures EventFits(b, es, k)
  {
    assert AnsweredOnce(b, es, c);
    if es[k].result.Some? {
      assert Names(es, k, c, es[k].result.value.agent);
    }
  }

  lemma LinkedAnswers(b: Background, es: seq<Event>, agentOf: map<string, string>, answered: set<string>)
    requires Bijective(b, es, agentOf) && AnswersListed(es, |es|, answered)
    ensures answered == agentOf.Keys
  {
    forall c | c in answered
      ensures c in agentOf
    {
      var j :| 0 <= j < |es| && Answers(es, j, c);
    }
    forall c | c in agentOf
      ensures c in answered
    {
      assert AnsweredOnce(b, es, c);
    }
  }

  /** The events determine which agent each call names. */
  lemma NamesDetermined(es: seq<Event>, a: map<string, string>, b: map<string, string>)
    requires NamesListed(es, |es|, a) && NamesListed(es, |es|, b)
    ensures a == b
  {
    forall c | c in a
      ensures c in b && b[c] == a[c]
    {
      var i :| 0 <= i < |es| && Names(es, i, c, a[c]);
    }
    forall c | c in b
      ensures c in a
    {
      var i :| 0 <= i < |es| && Names(es, i, c, b[c]);
    }
  }

  /** Bijective linkage passes the final set comparisons and is found by the loop. */
  lemma BijectiveIsLinked(b: Background, es: seq<Event>, agentOf: map<string, string>, l: Links)
    requires Bijective(b, es, agentOf) && Tables(es, |es|, l)
    ensures l.calls == agentOf.Keys && l.answered == agentOf.Keys && l.bindings == agentOf
    ensures |agentOf.Values| == |agentOf.Keys|
  {
    LinkedAnswers(b, es, agentOf, l.answered);
    NamesDetermined(es, agentOf, l.bindings);
    assert forall c :: c in l.calls <==> c in agentOf.Keys;
    InjectiveSameSize(agentOf);
  }

  lemma {:induction false} InjectiveSameSize(m: map<string, string>)
    requires forall c, d :: c in m && d in m && m[c] == m[d] ==> c == d
    ensures |m.Values| == |m.Keys|
    decreases |m.Keys|
  {
    if k :| k in m {
      var rest := m - {k};
      assert rest.Keys == m.Keys - {k};
      InjectiveSameSize(rest);
      assert m.Values == rest.Values + {m[k]} by {
        forall v | v in m.Values
          ensures v in rest.Values + {m[k]}
        {
          var x :| x in m && m[x] == v;
          assert x != k ==> x in rest && rest[x] == v;
        }
      }
    } else {
      assert m.Values == {};
    }
  }

  lemma SameSizeIsInjective(m: map<string, string>)
    requires |m.Values| == |m.Keys|
    ensures forall c, d :: c in m && d in m && m[c] == m[d] ==> c == d
  {
    forall c, d | c in m && d in m && m[c] == m[d]
      ensures c == d
    {
      if c != d {
        SharedValueShrinks(m, c, d);
      }
    }
  }

  lemma SharedValueShrinks(m: map<string, string>, c: string, d: string)
    requires c in m && d in m && m[c] == m[d] && c != d
    ensures |m.Values| < |m.Keys|
  {
    var rest := m - {c};
    assert m.Values == rest.Values by {
      forall v | v in m.Values
        ensures v in rest.Values
      {
        var x :| x in m && m[x] == v;
        if x == c {
          assert d in rest && rest[d] == v;
        } else {
          assert x in rest && rest[x] == v;
        }
      }
    }
    ValuesAtMostKeys(rest);
    assert rest.Keys == m.Keys - {c};
  }

  lemma {:induction false} ValuesAtMostKeys(m: map<string, string>)
    ensures |m.Values| <= |m.Keys|
    decreases |m.Keys|
  {
    if k :| k in m {
      var rest := m - {k};
      assert rest.Keys == m.Keys - {k};
      ValuesAtMostKeys(rest);
      assert m.Values <= rest.Values + {m[k]} by {
        forall v | v in m.Values
          ensures v in rest.Values + {m[k]}
        {
          var x :| x in m && m[x] == v;
          if x != k {
            assert x in rest && rest[x] == v;
          }
        }
      }
      SubsetSize(m.Values, rest.Values + {m[k]});
    } else {
      assert m.Values == {};
    }
  }

  lemma {:induction false} SubsetSize(a: set<string>, b: set<string>)
    requires a <= b
    ensures |a| <= |b|
    decreases b
  {
    if x :| x in a {
      SubsetSize(a - {x}, b - {x});
    }
  }

  // ---------------------------------------------------------------- child transcripts

  /** A user or assistant row of a child transcript; `owned` says session, version and directory fit. */
  datatype ChildRow = ChildRow(assistant: bool, agent: Option<string>, owned: bool, id: Option<string>,
                               usage: Option<Usage>)

  /** Messages by id in order of first appearance; a repeated id keeps its latest counters. */
  datatype Messages = Messages(order: seq<string>, usage: map<string, Usage>)

  function Put(m: Messages, id: string, u: Usage): (n: Messages) {
    Messages(if id in m.usage then m.order else m.order + [id], m.usage[id := u])
  }

  ghost predicate MessagesOk(m: Messages) {
    Distinct(m.order) && forall x :: x in m.order <==> x in m.usage
  }

  /** The counters a transcript finally holds for message `id`. */
  ghost predicate LatestUsage(rows: seq<ChildRow>, id: string, u: Usage) {
    exists i: nat :: LatestAt(rows, id, u, i)
  }

  ghost predicate LatestAt(rows: seq<ChildRow>, id: string, u: Usage, i: nat) {
    && i < |rows| && rows[i].assistant && rows[i].id == Some(id) && rows[i].usage == Some(u)
    && forall j :: i < j < |rows| && rows[j].assistant ==> rows[j].id != Some(id)
  }

  /** `messages` lists every assistant message id of the rows once, with its latest counters. */
  ghost predicate Collected(rows: seq<ChildRow>, m: Messages) {
    && MessagesOk(m)
    && (forall id :: id in m.usage <==> exists i :: 0 <= i < |rows| && rows[i].assistant && rows[i].id == Some(id))
    && (forall id :: id in m.usage ==> LatestUsage(rows, id, m.usage[id]))
  }

  ghost predicate GoodRow(agent: string, row: ChildRow) {
    row.agent == Some(agent) && row.owned && (row.assistant ==> row.id.Some? && row.usage.Some?)
  }

  function MessageUsages(m: Messages): (us: seq<Usage>)
    requires MessagesOk(m)
    ensures |us| == |m.order| && forall i :: 0 <= i < |us| ==> us[i] == m.usage[m.order[i]]
  {
    seq(|m.order|, i requires 0 <= i < |m.order| => m.usage[m.order[i]])
  }

  /** The messages of the first `k` rows, later counters replacing earlier ones. */
  function Collect(rows: seq<ChildRow>, k: nat): (m: Messages)
    requires k <= |rows|
    ensures MessagesOk(m)
  {
    if k == 0 then Messages([], map[])
    else
      var m, row := Collect(rows, k - 1), rows[k - 1];
      if row.assistant && row.id.Some? && row.usage.Some? then Put(m, row.id.value, row.usage.value) else m
  }

  ghost predicate Complete(rows: seq<ChildRow>) {
    forall i :: 0 <= i < |rows| && rows[i].assistant ==> rows[i].id.Some? && rows[i].usage.Some?
  }

  /** Each distinct message id is listed once, with its latest counters. */
  lemma {:induction false} CollectIsCollected(rows: seq<ChildRow>, k: nat)
    requires k <= |rows| && Complete(rows)
    ensures Collected(rows[..k], Collect(rows, k))
  {
    if k > 0 {
      CollectIsCollected(rows, k - 1);
      PutKeeps(rows, k - 1, Collect(rows, k - 1));
    }
  }

  /** The counters after one more row. */
  function Next(m: Messages, row: ChildRow): (n: Messages)
    requires row.assistant ==> row.id.Some? && row.usage.Some?
  {
    if row.assistant then Put(m, row.id.value, row.usage.value) else m
  }

  lemma PutIds(before: seq<ChildRow>, row: ChildRow, m: Messages)
    requires Collected(before, m) && (row.assistant ==> row.id.Some? && row.usage.Some?)
    ensures forall id :: id in Next(m, row).usage <==>
              exists i :: 0 <= i < |before + [row]| && (before + [row])[i].assistant
                  && (before + [row])[i].id == Some(id)
  {
    var after := before + [row];
    assert after[|before|] == row && forall i :: 0 <= i < |before| ==> after[i] == before[i];
  }

  lemma PutLatest(before: seq<ChildRow>, row: ChildRow, m: Messages, id: string)
    requires Collected(before, m) && (row.assistant ==> row.id.Some? && row.usage.Some?) && id in Next(m, row).usage
    ensures LatestUsage(before + [row], id, Next(m, row).usage[id])
  {
    var after, n := before + [row], Next(m, row);
    assert after[|before|] == row && forall i :: 0 <= i < |before| ==> after[i] == before[i];
    if row.assistant && row.id == Some(id) {
      assert LatestAt(after, id, n.usage[id], |before|);
    } else {
      assert LatestUsage(before, id, m.usage[id]);
      var i: nat :| LatestAt(before, id, m.usage[id], i);
      assert LatestAt(after, id, m.usage[id], i);
    }
  }

  lemma PutKeeps(rows: seq<ChildRow>, k: nat, m: Messages)
    requires k < |rows| && Collected(rows[..k], m)
    requires rows[k].assistant ==> rows[k].id.Some? && rows[k].usage.Some?
    ensures Collected(rows[..k + 1], Next(m, rows[k]))
  {
    assert rows[..k + 1] == rows[..k] + [rows[k]];
    PutIds(rows[..k], rows[k], m);
    forall id | id in Next(m, rows[k]).usage
      ensures LatestUsage(rows[..k] + [rows[k]], id, Next(m, rows[k]).usage[id])
    {
      PutLatest(rows[..k], rows[k], m, id);
    }
  }

  datatype Child = Child(agent: string, messages: Messages)

  /** `c` is the child of this transcript: all rows are its own and at least one message counts. */
  ghost predicate ChildOf(rows: seq<ChildRow>, c: Child) {
    && (forall j :: 0 <= j < |rows| ==> GoodRow(c.agent, rows[j]))
    && c.messages == Collect(rows, |rows|) && c.messages.order != []
  }

  /** One transcript: every row belongs to its first row's agent, and each distinct message counts once. */
  method ReadChild(rows: seq<ChildRow>) returns (r: Option<Child>)
    ensures r.Some? ==> ChildOf(rows, r.value) && Collected(rows, r.value.messages)
    ensures r.None? ==> forall c :: !ChildOf(rows, c)
  {
    if rows == [] || rows[0].agent.None? {
      return None;
    }
    var agent := rows[0].agent.value;
    var m := Messages([], map[]);
    for k := 0 to |rows|
      invariant forall i :: 0 <= i < k ==> GoodRow(agent, rows[i])
      invariant m == Collect(rows, k)
    {
      var row := rows[k];
      if row.agent != Some(agent) || !row.owned || (row.assistant && (row.id.None? || row.usage.None?)) {
        NoChild(rows, agent, k);
        return None;
      }
      if row.assistant {
        m := Put(m, row.id.value, row.usage.value);
      }
    }
    if m.order == [] {
      return None;
    }
    CollectIsCollected(rows, |rows|);
    assert rows[..|rows|] == rows;
    r := Some(Child(agent, m));
  }

  lemma NoChild(rows: seq<ChildRow>, agent: string, k: nat)
    requires k < |rows| && rows[0].agent == Some(agent) && !GoodRow(agent, rows[k])
    ensures forall c :: !ChildOf(rows, c)
  {
    forall c: Child
      ensures !ChildOf(rows, c)
    {
      if c.agent == agent {
        assert !GoodRow(c.agent, rows[k]);
      } else {
        assert !GoodRow(c.agent, rows[0]);
      }
    }
  }

  /** The children are those of the transcripts, in order, one transcript per agent. */
  ghost predicate ChildrenOf(logs: seq<seq<ChildRow>>, children: seq<Child>) {
    && |children| == |logs|
    && (forall i :: 0 <= i < |logs| ==> ChildOf(logs[i], children[i]))
    && forall i, j :: 0 <= i < j < |children| ==> children[i].agent != children[j].agent
  }

  /** The agents of the children are exactly the expected ones. */
  ghost predicate Covers(children: seq<Child>, expected: set<string>) {
    forall a :: a in expected <==> exists i :: 0 <= i < |children| && children[i].agent == a
  }

  lemma ChildrenDetermined(logs: seq<seq<ChildRow>>, k: nat, a: seq<Child>, b: seq<Child>)
    requires k <= |logs| && ChildrenOf(logs[..k], a) && ChildrenOf(logs, b)
    ensures b[..k] == a
  {
    forall i | 0 <= i < k
      ensures b[i] == a[i]
    {
      assert ChildOf(logs[..k][i], a[i]) && ChildOf(logs[i], b[i]);
      assert logs[i] != [] by { assert a[i].messages == Collect(logs[i], |logs[i]|); }
      assert GoodRow(a[i].agent, logs[i][0]) && GoodRow(b[i].agent, logs[i][0]);
    }
  }

  method ReadChildren(logs: seq<seq<ChildRow>>, expected: set<string>) returns (r: Option<seq<Child>>)
    ensures r.Some? ==> ChildrenOf(logs, r.value) && Covers(r.value, expected)
    ensures r.None? ==> forall b :: !(ChildrenOf(logs, b) && Covers(b, expected))
  {
    var children: seq<Child>, seen: set<string> := [], {};
    for k := 0 to |logs|
      invariant ChildrenOf(logs[..k], children) && Covers(children, seen) && seen <= expected
    {
      forall b: seq<Child> | ChildrenOf(logs, b)
        ensures b[..k] == children && ChildOf(logs[k], b[k])
      {
        ChildrenDetermined(logs, k, children, b);
      }
      var c := ReadChild(logs[k]);
      if c.None? {
        return None;
      }
      forall b: seq<Child> | ChildrenOf(logs, b)
        ensures b[k] == c.value
      {
        ChildDetermined(logs[k], b[k], c.value);
      }
      if c.value.agent !in expected || c.value.agent in seen {
        RefusedChild(logs, k, children, seen, expected, c.value);
        return None;
      }
      assert forall i :: 0 <= i < k ==> logs[..k + 1][i] == logs[..k][i];
      SeenGrows(children, seen, c.value);
      children := children + [c.value];
      seen := seen + {c.value.agent};
    }
    assert logs[..|logs|] == logs;
    if seen != expected {
      forall b: seq<Child> | ChildrenOf(logs, b)
        ensures !Covers(b, expected)
      {
        ChildrenDetermined(logs, |logs|, children, b);
        assert b == children;
        CoversOnce(children, seen, expected);
      }
      return None;
    }
    r := Some(children);
  }

  lemma ChildDetermined(rows: seq<ChildRow>, a: Child, b: Child)
    requires ChildOf(rows, a) && ChildOf(rows, b)
    ensures a == b
  {
    assert rows != [] by { assert a.messages == Collect(rows, |rows|); }
    assert GoodRow(a.agent, rows[0]) && GoodRow(b.agent, rows[0]);
  }

  lemma CoversOnce(children: seq<Child>, a: set<string>, b: set<string>)
    requires Covers(children, a) && a != b
    ensures !Covers(children, b)
  {
    if Covers(children, b) {
      assert forall x :: x in a <==> x in b;
    }
  }

  lemma SeenGrows(children: seq<Child>, seen: set<string>, c: Child)
    requires Covers(children, seen)
    ensures Covers(children + [c], seen + {c.agent})
  {
    var after := children + [c];
    forall a
      ensures a in seen + {c.agent} <==> exists i :: 0 <= i < |after| && after[i].agent == a
    {
      assert after[|children|] == c;
      if i :| 0 <= i < |children| && children[i].agent == a {
        assert after[i].agent == a;
      }
    }
  }

  lemma RefusedChild(logs: seq<seq<ChildRow>>, k: nat, children: seq<Child>, seen: set<string>, expected: set<string>,
                     c: Child)
    requires k < |logs| && |children| == k && Covers(children, seen) && (c.agent !in expected || c.agent in seen)
    requires forall b :: ChildrenOf(logs, b) ==> b[..k] == children && b[k] == c
    ensures forall b :: !(ChildrenOf(logs, b) && Covers(b, expected))
  {
    forall b: seq<Child>
      ensures !(ChildrenOf(logs, b) && Covers(b, expected))
    {
      if |b| == |logs| && b[..k] == children && b[k] == c {
        if c.agent in seen {
          var i :| 0 <= i < |children| && children[i].agent == c.agent;
          assert b[i] == b[..k][i];
          assert b[i].agent == b[k].agent;
        } else {
          assert b[k].agent == c.agent;
        }
      }
    }
  }

  function ChildUsages(children: seq<Child>): (us: seq<Usage>)
    requires forall i :: 0 <= i < |children| ==> MessagesOk(children[i].messages)
    ensures |us| == |children|
    ensures forall i :: 0 <= i < |us| ==> AddsUp(MessageUsages(children[i].messages), us[i])
  {
    assert forall us: seq<Usage> :: AddsUp(us, Sum(us)) by {
      forall us: seq<Usage>
        ensures AddsUp(us, Sum(us))
      {
        SumAddsUp(us, Sum(us));
      }
    }
    seq(|children|, i requires 0 <= i < |children| => Sum(MessageUsages(children[i].messages)))
  }

  // ---------------------------------------------------------------- finals and the reconciled total

  datatype Stats = Stats(spawned: int, completed: int, failed: int)

  /** A native `result` row; counters and models are None where `counters` refuses them. */
  datatype Final = Final(success: bool, session: Option<string>, usage: Option<Usage>,
                         models: seq<Option<Usage>>, stats: Option<Stats>)

  /** `claude_final_results`: continued turns of one session that report one cumulative pipeline. */
  predicate FinalsOk(finals: seq<Final>, session: string) {
    && finals != [] && finals[0].session == Some(session)
    && forall f :: f in finals ==>
        f.success && f.session == finals[0].session && f.models == finals[|finals| - 1].models
  }

  /** Every turn succeeded in this session and reports the models of the last. */
  ghost predicate OneSession(finals: seq<Final>, session: string) {
    finals != [] && forall i :: 0 <= i < |finals| ==>
      finals[i].success && finals[i].session == Some(session) && finals[i].models == finals[|finals| - 1].models
  }

  lemma FinalsExactly(finals: seq<Final>, session: string)
    ensures FinalsOk(finals, session) <==> OneSession(finals, session)
  {
  }

  predicate AllSome(us: seq<Option<Usage>>) {
    forall i :: 0 <= i < |us| ==> us[i].Some?
  }

  function Values(us: seq<Option<Usage>>): (vs: seq<Usage>)
    requires AllSome(us)
    ensures |vs| == |us| && forall i :: 0 <= i < |us| ==> Some(vs[i]) == us[i]
  {
    seq(|us|, i requires 0 <= i < |us| => us[i].value)
  }

  function FinalUsages(finals: seq<Final>): (us: seq<Option<Usage>>)
    ensures |us| == |finals| && forall i :: 0 <= i < |us| ==> us[i] == finals[i].usage
  {
    seq(|finals|, i requires 0 <= i < |finals| => finals[i].usage)
  }

  datatype Answer = Unobserved | Observed(total: Usage, main: Usage, agentOf: map<string, string>, children: seq<Child>)

  /** Every child the linkage found has finished, and none failed. */
  predicate StatsAgree(stats: Option<Stats>, children: nat) {
    && stats.Some? && stats.value.spawned == stats.value.completed
    && stats.value.spawned == children && stats.value.failed == 0
  }

  /** The map is the bijection of calls, answers and child identities. */
  ghost predicate LinkedAs(system: seq<SystemRow>, rows: seq<Row>, agentOf: map<string, string>) {
    exists b: Background :: BackgroundOf(system, b) && Bijective(b, Events(rows), agentOf)
  }

  /** Counter by counter: the main agent is the sum of its turns, the total is the sum of the models, and it is also the
      main agent and every child together. */
  ghost predicate Tallied(finals: seq<Final>, children: seq<Child>, main: Usage, total: Usage) {
    && finals != [] && AllSome(FinalUsages(finals)) && AddsUp(Values(FinalUsages(finals)), main)
    && (forall i :: 0 <= i < |children| ==> MessagesOk(children[i].messages))
    && var models := finals[|finals| - 1].models;
       && models != [] && AllSome(models) && AddsUp(Values(models), total)
       && AddsUp([main] + ChildUsages(children), total)
  }

  /** The comparison of the pipeline's counters with those of the main agent and its children. */
  method Tally(finals: seq<Final>, children: seq<Child>) returns (r: Option<(Usage, Usage)>)
    requires finals != [] && forall i :: 0 <= i < |children| ==> MessagesOk(children[i].messages)
    ensures r.Some? ==> Tallied(finals, children, r.value.0, r.value.1)
    ensures r.None? ==> forall main, total :: !Tallied(finals, children, main, total)
  {
    var models := finals[|finals| - 1].models;
    if models == [] || !AllSome(models) || !AllSome(FinalUsages(finals)) {
      return None;
    }
    var pipeline := Sum(Values(models));
    var main := Sum(Values(FinalUsages(finals)));
    SumAddsUp(Values(models), pipeline);
    SumAddsUp(Values(FinalUsages(finals)), main);
    SumAddsUp([main] + ChildUsages(children), pipeline);
    if Sum([main] + ChildUsages(children)) != pipeline {
      forall m, t | Tallied(finals, children, m, t)
        ensures m == main && t == pipeline
      {
        SumAddsUp(Values(models), t);
        SumAddsUp(Values(FinalUsages(finals)), m);
      }
      return None;
    }
    r := Some((main, pipeline));
  }

  /** Everything an observed answer promises. */
  ghost predicate Reconciled(system: seq<SystemRow>, rows: seq<Row>, finals: seq<Final>, logs: seq<seq<ChildRow>>,
                             session: string, r: Answer)
    requires r.Observed?
  {
    && OneSession(finals, session)
    && (var n := |r.agentOf.Values|; finals[|finals| - 1].stats == Some(Stats(n, n, 0)))
    && NoRepeats(system)
    && LinkedAs(system, rows, r.agentOf)
    && ChildrenOf(logs, r.children) && Covers(r.children, r.agentOf.Values)
    && Tallied(finals, r.children, r.main, r.total)
  }

  lemma BackgroundDetermined(rows: seq<SystemRow>, a: Background, b: Background)
    requires BackgroundOf(rows, a) && BackgroundOf(rows, b)
    ensures a == b
  {
    forall c | c in a.starts
      ensures c in b.starts && b.starts[c] == a.starts[c]
    {
      assert Started(c, a.starts[c]) in rows;
    }
    forall c | c in b.starts
      ensures c in a.starts
    {
      assert Started(c, b.starts[c]) in rows;
    }
    forall c | c in a.notes
      ensures c in b.notes && b.notes[c] == a.notes[c]
    {
      assert Notified(c, a.notes[c]) in rows;
    }
    forall c | c in b.notes
      ensures c in a.notes
    {
      assert Notified(c, b.notes[c]) in rows;
    }
    assert a.starts == b.starts && a.notes == b.notes;
  }

  /** Linkage: the bijection when there is one, and None exactly when there is none. */
  method LinkAgents(system: seq<SystemRow>, rows: seq<Row>) returns (r: Option<map<string, string>>)
    ensures r.Some? ==> NoRepeats(system)
    ensures r.Some? ==> LinkedAs(system, rows, r.value) && forall m :: LinkedAs(system, rows, m) ==> m == r.value
    ensures r.None? ==> !NoRepeats(system) || forall m :: !LinkedAs(system, rows, m)
  {
    var background := ReadBackground(system);
    if background.None? {
      return None;
    }
    var b0, es := background.value, Events(rows);
    forall b: Background | BackgroundOf(system, b)
      ensures b == b0
    {
      BackgroundDetermined(system, b, b0);
    }
    var linked := Link(b0, es);
    forall m | Bijective(b0, es, m)
      ensures linked.Some? && linked.value.calls == m.Keys && linked.value.answered == m.Keys
              && linked.value.bindings == m && |m.Values| == |m.Keys|
    {
      forall k: nat | k < |es|
        ensures EventFits(b0, es, k)
      {
        BijectiveFits(b0, es, m, k);
      }
      BijectiveIsLinked(b0, es, m, linked.value);
    }
    if linked.None? {
      return None;
    }
    var l := linked.value;
    if l.calls != l.answered || l.bindings.Keys != l.calls || |l.bindings.Values| != |l.calls| {
      return None;
    }
    LinkedIsBijective(b0, es, l);
    r := Some(l.bindings);
  }

  lemma SameChildren(logs: seq<seq<ChildRow>>, a: seq<Child>, b: seq<Child>)
    requires ChildrenOf(logs, a) && ChildrenOf(logs, b)
    ensures a == b
  {
    assert logs[..|logs|] == logs;
    ChildrenDetermined(logs, |logs|, a, b);
  }

  /** Whatever reconciles tallies the children that the transcripts determine. */
  lemma ReconciledTallies(system: seq<SystemRow>, rows: seq<Row>, finals: seq<Final>, logs: seq<seq<ChildRow>>,
                          session: string, x: Answer, children: seq<Child>)
    requires x.Observed? && Reconciled(system, rows, finals, logs, session, x) && ChildrenOf(logs, children)
    ensures Tallied(finals, children, x.main, x.total)
  {
    SameChildren(logs, children, x.children);
  }

  lemma NothingTallies(system: seq<SystemRow>, rows: seq<Row>, finals: seq<Final>, logs: seq<seq<ChildRow>>,
                       session: string, children: seq<Child>)
    requires ChildrenOf(logs, children) && forall main, total :: !Tallied(finals, children, main, total)
    ensures forall x: Answer :: x.Observed? ==> !Reconciled(system, rows, finals, logs, session, x)
  {
    forall x: Answer | x.Observed?
      ensures !Reconciled(system, rows, finals, logs, session, x)
    {
      if Reconciled(system, rows, finals, logs, session, x) {
        ReconciledTallies(system, rows, finals, logs, session, x, children);
      }
    }
  }

  /** `claude_owned_tree`: observed exactly when everything reconciles. */
  method ClaudeTotal(qualified: bool, system: seq<SystemRow>, rows: seq<Row>, finals: seq<Final>,
                     logs: seq<seq<ChildRow>>, session: string) returns (r: Answer)
    ensures r.Observed? ==> qualified && Reconciled(system, rows, finals, logs, session, r)
    ensures r.Unobserved? ==> !qualified || forall x: Answer :: x.Observed? ==>
              !Reconciled(system, rows, finals, logs, session, x)
  {
    FinalsExactly(finals, session);
    if !qualified || !FinalsOk(finals, session) {
      return Unobserved;
    }
    var final := finals[|finals| - 1];
    var linked := LinkAgents(system, rows);
    if linked.None? || !StatsAgree(final.stats, |linked.value.Values|) {
      return Unobserved;
    }
    var children := ReadChildren(logs, linked.value.Values);
    if children.None? {
      return Unobserved;
    }
    var tally := Tally(finals, children.value);
    if tally.None? {
      NothingTallies(system, rows, finals, logs, session, children.value);
      return Unobserved;
    }
    r := Observed(tally.value.1, tally.value.0, linked.value, children.value);
  }
}
