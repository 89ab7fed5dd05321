/**
 * The retry client of `task_record.py` against an append-only keyed Runtime: requests and replies may be lost, and
 * other writers may get in between any two attempts.
 */
module TaskRecord {
  import opened Lists

  datatype Kind = Ordinary(name: string) | Merged | Closed | ReviewActivity | ProofRecorded

  /** A record's fields, by name, as JSON text. */
  type Doc = map<string, string>

  /** What one command sends; `proof` is the digest a proof record is filed under. */
  datatype Record = Record(lane: string, kind: Kind, doc: Doc, proof: string)

  /** The whole body; the time it was emitted is part of it. */
  datatype Request = Request(record: Record, now: string)

  /** The digest stands for what it is taken of: lane, kind and the document without its timestamp. */
  datatype Digest = Digest(lane: string, kind: Kind, content: Doc)

  datatype Key = ProofKey(proof: string) | RecordKey(name: string, digest: Digest)

  function Content(r: Record): (c: Doc) {
    r.doc - {"at"}
  }

  function KindName(k: Kind): (s: string) {
    match k
    case Ordinary(name) => name
    case Merged => "merged"
    case Closed => "closed"
    case ReviewActivity => "review_activity"
    case ProofRecorded => "proof_recorded"
  }

  const NAME_LIMIT := 47
  const PROOF_LIMIT := 58
  const DIGEST_LENGTH := 16

  function Cut(s: string, limit: nat): (r: string) {
    if |s| > limit then s[..limit] else s
  }

  /** The readable part of a key. */
  function NameOf(r: Record): (s: string) {
    r.lane + "-" + (if "taskId" in r.doc then r.doc["taskId"] else "") + "-" + KindName(r.kind)
  }

  /** The idempotency key: a readable name, cut where the whole would pass 64 characters, and the digest. */
  function KeyOf(r: Record): (k: Key) {
    if r.kind == ProofRecorded then ProofKey(Cut(r.proof, PROOF_LIMIT))
    else RecordKey(Cut(NameOf(r), NAME_LIMIT), Digest(r.lane, r.kind, Content(r)))
  }

  /** Two records that are not proofs share a key exactly when they differ in nothing but their timestamp. */
  lemma KeyIsContent(a: Record, b: Record)
    requires a.kind != ProofRecorded && b.kind != ProofRecorded
    ensures KeyOf(a) == KeyOf(b) <==> a.lane == b.lane && a.kind == b.kind && Content(a) == Content(b)
  {
    if Content(a) == Content(b) {
      assert "taskId" in a.doc <==> "taskId" in Content(a);
      assert "taskId" in b.doc <==> "taskId" in Content(b);
      assert "taskId" in a.doc ==> Content(a)["taskId"] == a.doc["taskId"];
      assert "taskId" in b.doc ==> Content(b)["taskId"] == b.doc["taskId"];
    }
  }

  /** Stamping a record anew keeps its key. */
  lemma TimestampKeepsKey(r: Record, at: string)
    ensures KeyOf(r.(doc := r.doc["at" := at])) == KeyOf(r)
  {
    assert r.doc["at" := at] - {"at"} == r.doc - {"at"};
    if r.kind != ProofRecorded {
      KeyIsContent(r.(doc := r.doc["at" := at]), r);
    }
  }

  // ---------------------------------------------------------------- the key as one text

  /** What the hash is taken of: lane, kind and content, joined by line feeds. */
  function Joined(json: Doc -> string, r: Record): (s: string) {
    r.lane + "\n" + KindName(r.kind) + "\n" + json(Content(r))
  }

  /** The idempotency key as it is sent. */
  function KeyText(sha: string -> string, json: Doc -> string, r: Record): (s: string) {
    if r.kind == ProofRecorded then "proof-" + Cut(r.proof, PROOF_LIMIT)
    else
      var whole := NameOf(r) + "-" + sha(Joined(json, r));
      if |whole| > 64 then whole[..NAME_LIMIT] + "-" + sha(Joined(json, r)) else whole
  }

  /** Compact JSON escapes line feeds and loses nothing; the digest has sixteen characters. */
  ghost predicate Renders(sha: string -> string, json: Doc -> string) {
    && (forall s :: |sha(s)| == DIGEST_LENGTH)
    && (forall c :: '\n' !in json(c))
    && (forall c, d :: json(c) == json(d) ==> c == d)
  }

  /** A kind the command line offers, named once, and a proof digest in hexadecimal. */
  predicate Proper(r: Record) {
    && (r.kind.Ordinary? ==> Offered(r.kind.name))
    && '-' !in r.proof
  }

  predicate Offered(name: string) {
    '\n' !in name && name !in ["merged", "closed", "review_activity", "proof_recorded"]
  }

  lemma LastFeed(a: string, x: string)
    requires '\n' !in x
    ensures (a + "\n" + x)[|a|] == '\n' && forall i | |a| < i < |a + "\n" + x| :: (a + "\n" + x)[i] != '\n'
  {
  }

  /** The last line feed of a text tells its last line apart from the rest. */
  lemma LastLine(a: string, b: string, x: string, y: string)
    requires a + "\n" + x == b + "\n" + y && '\n' !in x && '\n' !in y
    ensures a == b && x == y
  {
    LastFeed(a, x);
    LastFeed(b, y);
    var s, t := a + "\n" + x, b + "\n" + y;
    assert |a| == |b|;
    assert a == s[..|a|] && b == t[..|a|];
    assert x == s[|a| + 1..] && y == t[|a| + 1..];
  }

  lemma NamesDiffer(a: Record, b: Record)
    requires Proper(a) && Proper(b) && KindName(a.kind) == KindName(b.kind)
    ensures a.kind == b.kind
  {
  }

  /** The hashed text tells lane, kind and content, whatever characters the lane has. */
  lemma JoinedInjective(sha: string -> string, json: Doc -> string, a: Record, b: Record)
    requires Renders(sha, json) && Proper(a) && Proper(b) && Joined(json, a) == Joined(json, b)
    ensures a.lane == b.lane && a.kind == b.kind && Content(a) == Content(b)
  {
    LastLine(a.lane + "\n" + KindName(a.kind), b.lane + "\n" + KindName(b.kind), json(Content(a)), json(Content(b)));
    LastLine(a.lane, b.lane, KindName(a.kind), KindName(b.kind));
    NamesDiffer(a, b);
  }

  /** Cut or not, a record's key is its name, at most 47 characters of it, and its whole digest. */
  lemma KeyTextShape(sha: string -> string, json: Doc -> string, r: Record)
    requires Renders(sha, json) && r.kind != ProofRecorded
    ensures KeyText(sha, json, r) == Cut(NameOf(r), NAME_LIMIT) + "-" + sha(Joined(json, r))
  {
    var whole := NameOf(r) + "-" + sha(Joined(json, r));
    if |whole| > 64 {
      assert whole[..NAME_LIMIT] == NameOf(r)[..NAME_LIMIT];
    }
  }

  /** Two texts that end in digests of one length are equal only if names and digests are. */
  lemma SplitsAtDigest(n: string, m: string, d: string, e: string)
    requires n + "-" + d == m + "-" + e && |d| == |e|
    ensures n == m && d == e
  {
    var s, t := n + "-" + d, m + "-" + e;
    assert n == s[..|n|] && m == t[..|n|];
    assert d == s[|n| + 1..] && e == t[|n| + 1..];
  }

  lemma OneDash(proof: string)
    requires '-' !in proof
    ensures forall i | 0 <= i < |"proof-" + proof| :: ("proof-" + proof)[i] == '-' ==> i == 5
  {
  }

  /** A record's key has a dash before its digest, and another one after the lane where the name is not cut. */
  lemma Dashes(r: Record, name: string, digest: string)
    requires name == Cut(NameOf(r), NAME_LIMIT)
    ensures (name + "-" + digest)[|name|] == '-'
    ensures |name| < NAME_LIMIT ==> |r.lane| < |name| && (name + "-" + digest)[|r.lane|] == '-'
  {
    assert NameOf(r)[|r.lane|] == '-';
  }

  /** No record's key is a proof's, which has one dash only. */
  lemma ProofTextsApart(sha: string -> string, json: Doc -> string, a: Record, b: Record)
    requires Renders(sha, json) && Proper(a) && a.kind == ProofRecorded && b.kind != ProofRecorded
    ensures KeyText(sha, json, a) != KeyText(sha, json, b)
  {
    KeyTextShape(sha, json, b);
    OneDash(Cut(a.proof, PROOF_LIMIT));
    Dashes(b, Cut(NameOf(b), NAME_LIMIT), sha(Joined(json, b)));
  }

  /** As long as the hash does not collide on the two texts, two keys are one text exactly when they are one key. */
  lemma KeyTextsAgree(sha: string -> string, json: Doc -> string, a: Record, b: Record)
    requires Renders(sha, json) && Proper(a) && Proper(b)
    requires sha(Joined(json, a)) == sha(Joined(json, b)) ==> Joined(json, a) == Joined(json, b)
    ensures KeyText(sha, json, a) == KeyText(sha, json, b) <==> KeyOf(a) == KeyOf(b)
  {
    if a.kind == ProofRecorded && b.kind == ProofRecorded {
      ProofTextsSplit(Cut(a.proof, PROOF_LIMIT), Cut(b.proof, PROOF_LIMIT));
    } else if a.kind == ProofRecorded {
      ProofTextsApart(sha, json, a, b);
    } else if b.kind == ProofRecorded {
      ProofTextsApart(sha, json, b, a);
    } else {
      RecordTextsAgree(sha, json, a, b);
    }
  }

  lemma ProofTextsSplit(p: string, q: string)
    ensures "proof-" + p == "proof-" + q <==> p == q
  {
    assert p == ("proof-" + p)[6..] && q == ("proof-" + q)[6..];
  }

  lemma RecordTextsAgree(sha: string -> string, json: Doc -> string, a: Record, b: Record)
    requires Renders(sha, json) && Proper(a) && Proper(b) && a.kind != ProofRecorded && b.kind != ProofRecorded
    requires sha(Joined(json, a)) == sha(Joined(json, b)) ==> Joined(json, a) == Joined(json, b)
    ensures KeyText(sha, json, a) == KeyText(sha, json, b) <==> KeyOf(a) == KeyOf(b)
  {
    KeyTextShape(sha, json, a);
    KeyTextShape(sha, json, b);
    if KeyText(sha, json, a) == KeyText(sha, json, b) {
      SplitsAtDigest(Cut(NameOf(a), NAME_LIMIT), Cut(NameOf(b), NAME_LIMIT), sha(Joined(json, a)),
          sha(Joined(json, b)));
      JoinedInjective(sha, json, a, b);
    }
  }

  // ---------------------------------------------------------------- the Runtime

  datatype Code = SequenceConflict | IdempotencyConflict | Other(number: nat)

  datatype Reply = Accepted | Refused(codes: set<Code>)

  /** What the Runtime does with one delivered request: the same request again is answered from the log, another
      request under the same key is a conflict, a lost race or a refusal changes nothing, and otherwise it appends. */
  function Answer(log: seq<Request>, r: Request, raced: bool, refusal: Option<nat>): (a: (seq<Request>, Reply)) {
    if refusal.Some? then (log, Refused({Other(refusal.value)}))
    else if r in log then (log, Accepted)
    else if exists i :: 0 <= i < |log| && KeyOf(log[i].record) == KeyOf(r.record) then
      (log, Refused({IdempotencyConflict}))
    else if raced then (log, Refused({SequenceConflict}))
    else (log + [r], Accepted)
  }

  /** No two stored records share a key. */
  ghost predicate Keyed(log: seq<Request>) {
    forall i, j :: 0 <= i < j < |log| ==> KeyOf(log[i].record) != KeyOf(log[j].record)
  }

  /** Requests of other writers, in the order they arrive. */
  function Others(log: seq<Request>, rs: seq<Request>): (after: seq<Request>)
    decreases |rs|
  {
    if rs == [] then log else Others(Answer(log, rs[0], false, None).0, rs[1..])
  }

  lemma AnswerKeeps(log: seq<Request>, r: Request, raced: bool, refusal: Option<nat>)
    requires Keyed(log)
    ensures var after := Answer(log, r, raced, refusal).0;
            Keyed(after) && log <= after && (forall q :: q in after ==> q in log || q == r)
  {
  }

  lemma {:induction false} OthersKeep(log: seq<Request>, rs: seq<Request>)
    requires Keyed(log)
    ensures Keyed(Others(log, rs)) && log <= Others(log, rs)
    ensures forall q :: q in Others(log, rs) ==> q in log || q in rs
    decreases |rs|
  {
    if rs != [] {
      AnswerKeeps(log, rs[0], false, None);
      OthersKeep(Answer(log, rs[0], false, None).0, rs[1..]);
    }
  }

  // ---------------------------------------------------------------- the client

  datatype Fate = Replied | TimedOut | Unreachable

  /** What happens around one attempt: who gets in first, whether the request arrives, and what comes back. */
  datatype Weather = Weather(others: seq<Request>, arrives: bool, raced: bool, refusal: Option<nat>, fate: Fate)

  /** Nobody interferes and nothing is lost or refused. */
  predicate Calm(w: Weather) {
    w == Weather([], true, false, None, Replied)
  }

  /** The reply did not come, or came back with a lost race. */
  predicate Retried(w: Weather) {
    w.fate == TimedOut || (w.fate == Replied && w.raced && w.refusal.None?)
  }

  predicate RetriedUpTo(weather: nat -> Weather, n: nat) {
    forall k :: 0 <= k < n ==> Retried(weather(k))
  }

  /** The attempt is calm, and each before it was lost or raced. */
  predicate CalmAt(weather: nat -> Weather, n: nat) {
    Calm(weather(n)) && RetriedUpTo(weather, n)
  }

  predicate LostUpTo(weather: nat -> Weather, n: nat) {
    forall k :: 0 <= k < n ==> weather(k).fate == TimedOut
  }

  /** A reply cannot come back for a request that did not arrive. */
  predicate Possible(w: Weather) {
    w.fate == Replied ==> w.arrives
  }

  datatype Outcome = Exited | Code(code: nat)

  function Attempts(k: Kind): (n: nat) {
    match k
    case ReviewActivity => 2
    case ProofRecorded => 1
    case _ => 3
  }

  function RetryCodes(k: Kind): (codes: set<Code>) {
    match k
    case ProofRecorded => {}
    case ReviewActivity => {SequenceConflict, IdempotencyConflict}
    case _ => {SequenceConflict}
  }

  /** Neither a review activity nor a proof. */
  predicate Common(k: Kind) {
    k.Ordinary? || k == Merged || k == Closed
  }

  lemma CommonExactly(k: Kind)
    ensures Common(k) <==> k != ReviewActivity && k != ProofRecorded
  {
  }

  /** A timeout and a lost race are retried, and a calm attempt is one that can happen. */
  lemma WhatIsRetried(w: Weather)
    ensures w.fate == TimedOut ==> Retried(w)
    ensures w.fate == Replied && w.raced && w.refusal == None ==> Retried(w)
    ensures exists calm :: Calm(calm) && Possible(calm)
  {
    assert Calm(Weather([], true, false, None, Replied)) && Possible(Weather([], true, false, None, Replied));
  }

  /** No retry code is in the reply. */
  predicate Ends(k: Kind, reply: Reply) {
    reply.Accepted? || reply.codes * RetryCodes(k) == {}
  }

  /** Which of the replies to an unrefused attempt end the sending, by kind. */
  lemma EndsExactly(k: Kind, reply: Reply)
    ensures Common(k) && reply in REPLIES ==> (Ends(k, reply) <==> reply in SETTLED)
    ensures k == ReviewActivity && reply in REPLIES ==> (Ends(k, reply) <==> reply == Accepted)
    ensures k == ProofRecorded ==> Ends(k, reply)
  {
    if reply == Refused({SequenceConflict}) && k != ProofRecorded {
      assert SequenceConflict in reply.codes * RetryCodes(k);
    }
    if reply == Refused({IdempotencyConflict}) && k == ReviewActivity {
      assert IdempotencyConflict in reply.codes * RetryCodes(k);
    }
  }

  /** The replies to an unrefused attempt, and those that end the sending of an ordinary record. */
  const REPLIES := {Accepted, Refused({IdempotencyConflict}), Refused({SequenceConflict})}
  const SETTLED := {Accepted, Refused({IdempotencyConflict})}

  /** Same record, whatever the timestamp. */
  predicate SameRecord(a: Record, b: Record) {
    a.lane == b.lane && a.kind == b.kind && Content(a) == Content(b)
  }

  ghost predicate Stored(log: seq<Request>, r: Record) {
    exists i :: 0 <= i < |log| && SameRecord(log[i].record, r)
  }

  ghost predicate KeyTaken(log: seq<Request>, k: Key) {
    exists i :: 0 <= i < |log| && KeyOf(log[i].record) == k
  }

  /** What the answers 0 and 2 promise of the log, by kind. */
  ghost predicate Promised(log: seq<Request>, r: Request, o: Outcome) {
    && (o == Code(0) ==> r in log)
    && (o == Code(2) ==> r.record.kind != ReviewActivity && KeyTaken(log, KeyOf(r.record))
                         && (r.record.kind != ProofRecorded ==> Stored(log, r.record)))
  }

  /** A taken key of an ordinary record means the record itself is stored. */
  lemma TakenMeansStored(log: seq<Request>, r: Record)
    requires r.kind != ProofRecorded && KeyTaken(log, KeyOf(r))
    ensures Stored(log, r)
  {
    var i :| 0 <= i < |log| && KeyOf(log[i].record) == KeyOf(r);
    assert log[i].record.kind != ProofRecorded;
    KeyIsContent(log[i].record, r);
  }

  /** The Runtime as its clients see it. */
  class Runtime {
    var log: seq<Request>

    constructor ()
      ensures log == [] && Keyed(log)
    {
      log := [];
    }

    /** One attempt under given weather; what the client gets to see of it. */
    method Attempt(r: Request, w: Weather) returns (seen: Option<Reply>)
      requires Keyed(log) && Possible(w)
      modifies this
      ensures Keyed(log) && old(log) <= log
      ensures forall q :: q in log ==> q in old(log) || q in w.others || q == r
      ensures seen.Some? <==> w.fate == Replied
      ensures seen == Some(Accepted) ==> r in log
      ensures seen.Some? && seen.value.Refused? && seen.value.codes == {IdempotencyConflict} ==>
                KeyTaken(log, KeyOf(r.record))
      ensures seen == Some(Refused({SequenceConflict})) ==> !KeyTaken(log, KeyOf(r.record))
      ensures seen.Some? && w.refusal.None? ==>
                seen.value in {Accepted, Refused({IdempotencyConflict}), Refused({SequenceConflict})}
      ensures Calm(w) ==> (log, seen.value) == Answer(old(log), r, false, None)
    {
      OthersKeep(log, w.others);
      log := Others(log, w.others);
      seen := None;
      if w.arrives {
        AnswerKeeps(log, r, w.raced, w.refusal);
        var (after, reply) := Answer(log, r, w.raced, w.refusal);
        log := after;
        if w.fate == Replied {
          seen := Some(reply);
        }
      }
    }

    /** The loop of `send`: sends the same request until an answer is none of its kind's retry codes. */
    method Deliver(r: Request, weather: nat -> Weather) returns (answer: Option<Reply>)
      requires Keyed(log) && forall k: nat :: Possible(weather(k))
      modifies this
      ensures Keyed(log) && old(log) <= log
      ensures forall q :: q in log ==> q in old(log) || q == r || exists k: nat :: q in weather(k).others
      ensures answer == Some(Accepted) ==> r in log
      ensures answer == Some(Refused({IdempotencyConflict})) ==> KeyTaken(log, KeyOf(r.record))
      ensures answer == Some(Refused({SequenceConflict})) ==> !KeyTaken(log, KeyOf(r.record))
      ensures answer.Some? && (forall k: nat :: weather(k).refusal.None?) ==> answer.value in REPLIES
      ensures Calm(weather(0)) && Common(r.record.kind) ==> answer == Some(Answer(old(log), r, false, None).1)
      ensures forall n: nat :: n < 3 && Common(r.record.kind) && CalmAt(weather, n) ==>
                answer.Some? && answer.value in SETTLED
      ensures r.record.kind == ReviewActivity && CalmAt(weather, 1) ==> answer.Some? && answer.value in REPLIES
      ensures LostUpTo(weather, 3) || (r.record.kind == ReviewActivity && LostUpTo(weather, 2))
              || (r.record.kind == ProofRecorded && LostUpTo(weather, 1)) ==>
                answer.None?
      ensures weather(0).fate == Unreachable ==> answer.None?
    {
      var attempts := Attempts(r.record.kind);
      var reply := Refused({});
      var attempt := 0;
      var answered := false;
      while attempt < attempts && !answered
        invariant 0 <= attempt <= attempts
        invariant Keyed(log) && old(log) <= log
        invariant forall q :: q in log ==> q in old(log) || q == r || exists k: nat :: q in weather(k).others
        invariant attempt == 0 ==> log == old(log) && !answered
        invariant attempt > 0 ==> reply.Accepted? ==> r in log
        invariant attempt > 0 && reply.Refused? && reply.codes == {IdempotencyConflict} ==>
                    KeyTaken(log, KeyOf(r.record))
        invariant attempt > 0 && reply == Refused({SequenceConflict}) ==> !KeyTaken(log, KeyOf(r.record))
        invariant answered || attempt == attempts ==>
                    (forall k: nat :: weather(k).refusal.None?) ==> reply in REPLIES
        invariant Calm(weather(0)) && Common(r.record.kind) && attempt > 0 ==>
                    answered && reply == Answer(old(log), r, false, None).1
        invariant answered ==> Ends(r.record.kind, reply)
        invariant Common(r.record.kind) && RetriedUpTo(weather, attempt) && answered ==> reply in SETTLED
        invariant forall n: nat :: n < attempt && Common(r.record.kind) && CalmAt(weather, n) ==>
                    answered && reply in SETTLED
        invariant attempt <= 1 && RetriedUpTo(weather, attempt) && answered ==> reply in REPLIES
        invariant attempt == 2 && RetriedUpTo(weather, 1) && Calm(weather(1)) ==> reply in REPLIES
        invariant LostUpTo(weather, attempts) ==> !answered && attempt < attempts
        invariant attempt > 0 ==> weather(0).fate != Unreachable
        decreases attempts - attempt, !answered
      {
        var w := weather(attempt);
        var seen := Attempt(r, w);
        if seen.None? {
          if w.fate == Unreachable || attempt == attempts - 1 {
            return None;
          }
          reply := Refused({});
        } else {
          reply := seen.value;
          answered := Ends(r.record.kind, reply);
          EndsExactly(r.record.kind, reply);
        }
        attempt := attempt + 1;
      }
      answer := Some(reply);
    }

    /** `send`: at most one record under the key whatever is lost or raced, and an answer of 0 or 2 only when it is
        stored; an unrefused 1 means it is not, and a calm rerun says whether the record had landed before,
            for a merge or
        a closing only where the history may be read. Such records and ordinary ones are sent up to three times,
            a review activity twice and a proof once: it answers as soon as one of these
        attempts is calm after others that were lost or raced, and gives up when all of them time out. */
    method Send(r: Request, weather: nat -> Weather, readable: bool) returns (o: Outcome)
      requires Keyed(log) && forall k: nat :: Possible(weather(k))
      modifies this
      ensures Keyed(log) && old(log) <= log
      ensures forall q :: q in log ==> q in old(log) || q == r || exists k: nat :: q in weather(k).others
      ensures o.Exited? || o.code in {0, 1, 2}
      ensures Promised(log, r, o)
      ensures o == Code(1) && Common(r.record.kind) && (forall k: nat :: weather(k).refusal.None?) ==>
                !KeyTaken(log, KeyOf(r.record))
      ensures Calm(weather(0)) && Common(r.record.kind) ==>
                if r in old(log) || !KeyTaken(old(log), KeyOf(r.record)) then o == Code(0)
                else if r.record.kind.Ordinary? || readable then o == Code(2)
                else o == Exited
      ensures forall n: nat :: n < 3 && Common(r.record.kind) && CalmAt(weather, n) ==>
                o == Code(0) || o == Code(2) || (!readable && !r.record.kind.Ordinary? && o == Exited)
      ensures r.record.kind == ReviewActivity && CalmAt(weather, 1) ==> o == Code(0) || o == Code(1)
      ensures LostUpTo(weather, 3) || (r.record.kind == ReviewActivity && LostUpTo(weather, 2))
              || (r.record.kind == ProofRecorded && LostUpTo(weather, 1)) ==>
                o == Exited
      ensures weather(0).fate == Unreachable ==> o == Exited
    {
      var answer := Deliver(r, weather);
      if answer.None? {
        return Exited;
      }
      var reply := answer.value;
      if reply.Accepted? {
        return Code(0);
      }
      if reply.codes == {IdempotencyConflict} && r.record.kind != ReviewActivity {
        if r.record.kind != ProofRecorded {
          TakenMeansStored(log, r.record);
        }
        if r.record.kind == Merged || r.record.kind == Closed {
          // `refuse_unless_stored_equal` reads the history, which the credential may not allow
          if !readable {
            return Exited;
          }
          var found := FindStored(r.record);
          if !found {
            return Exited;
          }
        }
        return Code(2);
      }
      return Code(1);
    }

    /** The comparison of `refuse_unless_stored_equal` over the whole log. */
    method FindStored(r: Record) returns (found: bool)
      ensures found <==> Stored(log, r)
    {
      found := false;
      for i := 0 to |log|
        invariant found <==> exists k :: 0 <= k < i && SameRecord(log[k].record, r)
      {
        if SameRecord(log[i].record, r) {
          found := true;
        }
      }
    }
  }

  /** With no two keys alike, a record that is not a proof is stored at most once, whatever its timestamps. */
  lemma StoredOnce(log: seq<Request>, i: nat, j: nat)
    requires Keyed(log) && i < |log| && j < |log| && log[i].record.kind != ProofRecorded
    requires SameRecord(log[i].record, log[j].record)
    ensures i == j
  {
    KeyIsContent(log[i].record, log[j].record);
  }
}
