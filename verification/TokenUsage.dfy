/** Native token counters, shared by the Codex and Claude session readers. */
module TokenUsage {
  datatype Usage = Usage(input: nat, output: nat, cacheRead: nat, cacheWrite: nat)

  const ZERO := Usage(0, 0, 0, 0)

  function Add(a: Usage, b: Usage): (c: Usage) {
    Usage(a.input + b.input, a.output + b.output, a.cacheRead + b.cacheRead, a.cacheWrite + b.cacheWrite)
  }

  /** `_sum`: component by component. */
  function Sum(us: seq<Usage>): (total: Usage) {
    if us == [] then ZERO else Add(us[0], Sum(us[1..]))
  }

  function Total(ns: seq<nat>): (n: nat) {
    if ns == [] then 0 else ns[0] + Total(ns[1..])
  }

  /** One counter of every usage, in order. */
  function Column(us: seq<Usage>, counter: Usage -> nat): (ns: seq<nat>)
    ensures |ns| == |us| && forall i :: 0 <= i < |us| ==> ns[i] == counter(us[i])
  {
    seq(|us|, i requires 0 <= i < |us| => counter(us[i]))
  }

  /** Each of the four counters of `total` is the plain sum of that counter over the list. */
  predicate AddsUp(us: seq<Usage>, total: Usage) {
    && total.input == Total(Column(us, (u: Usage) => u.input))
    && total.output == Total(Column(us, (u: Usage) => u.output))
    && total.cacheRead == Total(Column(us, (u: Usage) => u.cacheRead))
    && total.cacheWrite == Total(Column(us, (u: Usage) => u.cacheWrite))
  }

  /** The component-wise sum is the one total that adds up. */
  lemma {:induction false} SumAddsUp(us: seq<Usage>, total: Usage)
    ensures AddsUp(us, total) <==> total == Sum(us)
  {
    if us != [] {
      var rest := us[1..];
      SumAddsUp(rest, Sum(rest));
      ColumnRest(us, (u: Usage) => u.input);
      ColumnRest(us, (u: Usage) => u.output);
      ColumnRest(us, (u: Usage) => u.cacheRead);
      ColumnRest(us, (u: Usage) => u.cacheWrite);
    }
  }

  lemma ColumnRest(us: seq<Usage>, counter: Usage -> nat)
    requires us != []
    ensures Total(Column(us, counter)) == counter(us[0]) + Total(Column(us[1..], counter))
  {
    assert Column(us, counter)[1..] == Column(us[1..], counter);
  }

  /** Component-wise order. */
  predicate AtMost(a: Usage, b: Usage) {
    a.input <= b.input && a.output <= b.output && a.cacheRead <= b.cacheRead && a.cacheWrite <= b.cacheWrite
  }
}
