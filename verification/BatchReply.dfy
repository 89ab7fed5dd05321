/** The slot worker's batch envelope and its validation (`_batch_result`). */
module BatchReply {

  datatype StopReason = Exhausted | LeaseBoundary | Deadline | ChildFailure | SpawnFailure

  /** One `completed` item; `Malformed` stands for any item of another JSON shape. */
  datatype Child = Malformed | Child(index: int, exitCode: int, elapsedSeconds: real)

  datatype Envelope = Envelope(completed: seq<Child>, remaining: seq<int>, stop: StopReason)

  datatype Parsed = Refused | Parsed(codes: seq<int>, remaining: seq<int>, stop: StopReason)

  /** Child `k` is well formed and names itself. */
  predicate GoodChild(c: Child, k: nat) {
    c.Child? && c.index == k && c.elapsedSeconds > 0.0
  }

  ghost predicate AllZero(codes: seq<int>) {
    forall k :: 0 <= k < |codes| ==> codes[k] == 0
  }

  /**
   * What an accepted reply means to the scheduler: the children are the first commands of the
   * batch, `remaining` is the rest, and a failing code is exactly the last child of a childFailure.
   */
  ghost predicate Accepted(p: Parsed, count: nat) {
    && p.Parsed?
    && |p.codes| <= count
    && p.remaining == seq(count - |p.codes|, i requires 0 <= i < count - |p.codes| => |p.codes| + i)
    && (p.stop.ChildFailure? <==> !AllZero(p.codes))
    && (p.stop.ChildFailure? ==> AllZero(p.codes[..|p.codes| - 1]))
    && (p.stop.Exhausted? ==> p.remaining == [])
    && (p.stop.LeaseBoundary? || p.stop.Deadline? || p.stop.SpawnFailure? ==> p.remaining != [])
    && (p.stop.LeaseBoundary? ==> p.codes != [])
  }

  /** The reply `_batch_result` accepts, read off the raw envelope. */
  ghost predicate Acceptable(e: Envelope, count: nat, cli: int) {
    && |e.completed| <= count
    && (forall k :: 0 <= k < |e.completed| ==> GoodChild(e.completed[k], k))
    && |e.remaining| == count - |e.completed|
    && (forall i :: 0 <= i < |e.remaining| ==> e.remaining[i] == |e.completed| + i)
    && (forall k :: 0 <= k < |e.completed| - 1 ==> e.completed[k].exitCode == 0)
    && var failed := e.completed != [] && e.completed[|e.completed| - 1].exitCode != 0;
       match e.stop {
         case Exhausted => e.remaining == [] && cli == 0 && !failed
         case LeaseBoundary => e.completed != [] && e.remaining != [] && cli == 0 && !failed
         case Deadline => e.remaining != [] && cli == 0 && !failed
         case ChildFailure => failed && e.completed[|e.completed| - 1].exitCode == cli
         case SpawnFailure => e.remaining != [] && cli != 0 && !failed
       }
  }

  /** What an acceptable envelope is read as. */
  ghost function Reading(e: Envelope): (p: Parsed)
    requires forall k :: 0 <= k < |e.completed| ==> e.completed[k].Child?
  {
    Parsed(seq(|e.completed|, k requires 0 <= k < |e.completed| => e.completed[k].exitCode), e.remaining, e.stop)
  }

  method AnyNonzero(codes: seq<int>) returns (any: bool)
    ensures any <==> !AllZero(codes)
  {
    any := false;
    for k := 0 to |codes|
      invariant any <==> !AllZero(codes[..k])
    {
      assert codes[..k + 1] == codes[..k] + [codes[k]];
      any := any || codes[k] != 0;
    }
    assert codes[..|codes|] == codes;
  }

  /** `_batch_result`: accepted exactly when the envelope is acceptable, and then it means `Accepted`. */
  method Validate(e: Envelope, count: nat, cli: int) returns (p: Parsed)
    ensures p.Parsed? <==> Acceptable(e, count, cli)
    ensures p.Parsed? ==> Accepted(p, count) && p == Reading(e)
  {
    if |e.completed| > count {
      return Refused;
    }
    var codes: seq<int> := [];
    for k := 0 to |e.completed|
      invariant |codes| == k
      invariant forall j :: 0 <= j < k ==> GoodChild(e.completed[j], j) && codes[j] == e.completed[j].exitCode
    {
      var item := e.completed[k];
      if !item.Child? || item.index != k {
        return Refused;
      }
      if item.elapsedSeconds <= 0.0 {
        return Refused;
      }
      codes := codes + [item.exitCode];
    }
    var rest := seq(count - |codes|, i requires 0 <= i < count - |codes| => |codes| + i);
    if e.remaining != rest {
      assert !(|e.remaining| == |rest| && forall i :: 0 <= i < |rest| ==> e.remaining[i] == rest[i]);
      return Refused;
    }
    var early := AnyNonzero(if codes == [] then [] else codes[..|codes| - 1]);
    if early {
      return Refused;
    }
    var any := AnyNonzero(codes);
    var bad := match e.stop {
      case Exhausted => |codes| != count || e.remaining != [] || cli != 0 || any
      case LeaseBoundary => codes == [] || e.remaining == [] || cli != 0 || any
      case Deadline => e.remaining == [] || cli != 0 || any
      case ChildFailure => codes == [] || codes[|codes| - 1] == 0 || codes[|codes| - 1] != cli
      case SpawnFailure => e.remaining == [] || cli == 0 || any
    };
    if bad {
      return Refused;
    }
    p := Parsed(codes, e.remaining, e.stop);
  }

  /** An acceptable envelope reads as an accepted reply. */
  lemma ReadingAccepted(e: Envelope, count: nat, cli: int)
    requires Acceptable(e, count, cli)
    ensures Accepted(Reading(e), count)
  {
    var p := Reading(e);
    assert p.remaining == seq(count - |p.codes|, i requires 0 <= i < count - |p.codes| => |p.codes| + i);
    if p.codes != [] && p.codes[|p.codes| - 1] != 0 {
      assert !AllZero(p.codes);
    }
  }
}
