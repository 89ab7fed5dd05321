/** Version precedence of `plugin_version_guard.py` as Python compares it, and as section 11 of Semantic Versioning
    2.0.0 defines it. */
module SemVer {
  import opened Lists

  /** A parsed version; build metadata is not part of it. */
  datatype Version = Version(major: nat, minor: nat, patch: nat, prerelease: Option<seq<string>>)

  // ---------------------------------------------------------------- identifiers

  predicate Digit(c: char) {
    '0' <= c <= '9'
  }

  /** `str.isdigit` on ASCII text. */
  predicate IsDigits(s: string) {
    s != [] && forall i :: 0 <= i < |s| ==> Digit(s[i])
  }

  /** `int(s)`. */
  function Value(s: string): (n: nat)
    requires forall i :: 0 <= i < |s| ==> Digit(s[i])
  {
    if s == [] then 0
    else
      assert Digit(s[|s| - 1]);
      Value(s[..|s| - 1]) * 10 + (s[|s| - 1] as int - '0' as int)
  }

  /** The version pattern admits no leading zero in a numeric identifier. */
  predicate Canonical(s: string) {
    IsDigits(s) ==> |s| == 1 || s[0] != '0'
  }

  predicate WellFormed(v: Version) {
    v.prerelease.Some? ==> forall i :: 0 <= i < |v.prerelease.value| ==> Canonical(v.prerelease.value[i])
  }

  /** Every number has such a numeral. */
  lemma {:induction false} NumeralExists(n: nat) returns (s: string)
    ensures IsDigits(s) && Canonical(s) && Value(s) == n
  {
    var c := ('0' as int + n % 10) as char;
    if n < 10 {
      s := [c];
      assert s[..0] == [];
    } else {
      var before := NumeralExists(n / 10);
      s := before + [c];
      assert s[..|s| - 1] == before;
    }
  }

  lemma {:induction false} ValuePositive(s: string)
    requires IsDigits(s) && s[0] != '0'
    ensures Value(s) > 0
  {
    if |s| > 1 {
      ValuePositive(s[..|s| - 1]);
    }
  }

  /** A number has one numeral without leading zeros. */
  lemma {:induction false} NumeralsDiffer(s: string, t: string)
    requires IsDigits(s) && IsDigits(t) && Canonical(s) && Canonical(t) && Value(s) == Value(t)
    ensures s == t
    decreases |s|
  {
    var s', t' := s[..|s| - 1], t[..|t| - 1];
    var a, b := s[|s| - 1] as int - '0' as int, t[|t| - 1] as int - '0' as int;
    assert Value(s') * 10 + a == Value(t') * 10 + b;
    assert Value(s') == Value(t') && a == b;
    assert s == s' + [s[|s| - 1]] && t == t' + [t[|t| - 1]];
    if s' != [] {
      ValuePositive(s');
    }
    if t' != [] {
      ValuePositive(t');
    }
    if s' != [] && t' != [] {
      NumeralsDiffer(s', t');
    }
  }

  // ---------------------------------------------------------------- Python's comparison

  datatype Order = Less | Equal | Greater | TypeError

  /** The Python values a precedence is made of. */
  datatype Py = Int(n: int) | Str(s: string) | Tuple(items: seq<Py>)

  function CompareInt(a: int, b: int): (o: Order) {
    if a < b then Less else if a == b then Equal else Greater
  }

  function CompareText(s: string, t: string): (o: Order) {
    if s == [] then (if t == [] then Equal else Less)
    else if t == [] then Greater
    else if s[0] < t[0] then Less
    else if s[0] > t[0] then Greater
    else CompareText(s[1..], t[1..])
  }

  /** Python's `<`, `==`, `>` on these values; values of different types have no order. */
  function Compare(a: Py, b: Py): (o: Order)
    decreases a, 1, 0
  {
    match (a, b)
    case (Int(m), Int(n)) => CompareInt(m, n)
    case (Str(s), Str(t)) => CompareText(s, t)
    case (Tuple(_), Tuple(_)) => CompareFrom(a, b, 0)
    case _ => TypeError
  }

  /** Two tuples that agree before position `k`. */
  function CompareFrom(a: Py, b: Py, k: nat): (o: Order)
    requires a.Tuple? && b.Tuple? && k <= |a.items| && k <= |b.items|
    decreases a, 0, |a.items| - k
  {
    if k == |a.items| then (if k == |b.items| then Equal else Less)
    else if k == |b.items| then Greater
    else
      var o := Compare(a.items[k], b.items[k]);
      if o == Equal then CompareFrom(a, b, k + 1) else o
  }

  /** Tuples compare item by item: equal items decide nothing, a proper prefix is smaller, and items of two types have
      no order. */
  lemma TuplesCompare(a: seq<Py>, b: seq<Py>, x: Py)
    requires forall i :: 0 <= i < |a| ==> Compare(a[i], a[i]) == Equal
    ensures Compare(Tuple(a), Tuple(a)) == Equal
    ensures Compare(Tuple(a), Tuple(a + [x])) == Less && Compare(Tuple(a + [x]), Tuple(a)) == Greater
    ensures forall n, s :: Compare(Tuple(a + [Int(n)]), Tuple(a + [Str(s)])) == TypeError
    ensures forall n, items :: Compare(Tuple(a + [Int(n)]), Tuple(a + [Tuple(items)])) == TypeError
  {
    PrefixAgrees(a, [], [], 0);
    PrefixAgrees(a, [], [x], 0);
    PrefixAgrees(a, [x], [], 0);
    assert a + [] == a;
    forall n, s
      ensures Compare(Tuple(a + [Int(n)]), Tuple(a + [Str(s)])) == TypeError
    {
      PrefixAgrees(a, [Int(n)], [Str(s)], 0);
    }
    forall n, items
      ensures Compare(Tuple(a + [Int(n)]), Tuple(a + [Tuple(items)])) == TypeError
    {
      PrefixAgrees(a, [Int(n)], [Tuple(items)], 0);
    }
  }

  lemma {:induction false} PrefixAgrees(a: seq<Py>, b: seq<Py>, c: seq<Py>, k: nat)
    requires k <= |a| && forall i :: 0 <= i < |a| ==> Compare(a[i], a[i]) == Equal
    ensures CompareFrom(Tuple(a + b), Tuple(a + c), k) == CompareFrom(Tuple(a + b), Tuple(a + c), |a|)
    decreases |a| - k
  {
    if k < |a| {
      PrefixAgrees(a, b, c, k + 1);
    }
  }

  function Encoded(id: string): (p: Py) {
    if IsDigits(id) then Tuple([Int(0), Int(Value(id))]) else Tuple([Int(1), Str(id)])
  }

  const END := Tuple([Int(-1)])

  function EncodedList(ids: seq<string>): (ps: seq<Py>)
    ensures |ps| == |ids| && forall i :: 0 <= i < |ids| ==> ps[i] == Encoded(ids[i])
  {
    seq(|ids|, i requires 0 <= i < |ids| => Encoded(ids[i]))
  }

  /** `_version_precedence`. */
  function Precedence(v: Version): (p: Py) {
    Tuple([Int(v.major), Int(v.minor), Int(v.patch),
           if v.prerelease.None? then Tuple([Int(1)])
           else Tuple([Int(0)] + EncodedList(v.prerelease.value) + [END])])
  }

  // ---------------------------------------------------------------- section 11

  /** Alike before `k`, and at `k` the first ends or is smaller. */
  ghost predicate TextParts(s: string, t: string, k: nat) {
    k <= |s| && k < |t| && (forall i :: 0 <= i < k ==> s[i] == t[i]) && (k < |s| ==> s[k] < t[k])
  }

  /** ASCII order: a proper prefix, or smaller at the first difference. */
  ghost predicate TextBelow(s: string, t: string) {
    exists k: nat :: TextParts(s, t, k)
  }

  /** Numeric identifiers by value, others in ASCII order, and numeric below the others. */
  ghost predicate IdBelow(x: string, y: string) {
    if IsDigits(x) then IsDigits(y) ==> Value(x) < Value(y)
    else !IsDigits(y) && TextBelow(x, y)
  }

  ghost predicate ListParts(xs: seq<string>, ys: seq<string>, k: nat) {
    k <= |xs| && k < |ys| && (forall i :: 0 <= i < k ==> xs[i] == ys[i]) && (k < |xs| ==> IdBelow(xs[k], ys[k]))
  }

  /** The first difference decides; if there is none, the shorter list is below. */
  ghost predicate ListBelow(xs: seq<string>, ys: seq<string>) {
    exists k: nat :: ListParts(xs, ys, k)
  }

  /** A version with a prerelease is below the same version without one. */
  ghost predicate PrereleaseBelow(p: Option<seq<string>>, q: Option<seq<string>>) {
    p.Some? && (q.None? || ListBelow(p.value, q.value))
  }

  ghost predicate Below(v: Version, w: Version) {
    || v.major < w.major
    || (v.major == w.major && v.minor < w.minor)
    || (v.major == w.major && v.minor == w.minor && v.patch < w.patch)
    || (v.major == w.major && v.minor == w.minor && v.patch == w.patch && PrereleaseBelow(v.prerelease, w.prerelease))
  }

  // ---------------------------------------------------------------- they agree

  lemma TextBelowTail(s: string, t: string)
    requires s != [] && t != [] && s[0] == t[0]
    ensures TextBelow(s, t) <==> TextBelow(s[1..], t[1..])
  {
    if k: nat :| TextParts(s, t, k) {
      assert k != 0;
      assert TextParts(s[1..], t[1..], k - 1);
    }
    if k: nat :| TextParts(s[1..], t[1..], k) {
      forall i | 0 <= i < k + 1
        ensures s[i] == t[i]
      {
        assert i > 0 ==> s[1..][i - 1] == t[1..][i - 1];
      }
      assert TextParts(s, t, k + 1);
    }
  }

  lemma {:induction false} CompareTextAgrees(s: string, t: string)
    ensures CompareText(s, t) == Less <==> TextBelow(s, t)
    ensures CompareText(s, t) == Greater <==> TextBelow(t, s)
    ensures CompareText(s, t) == Equal <==> s == t
    ensures CompareText(s, t) != TypeError
    decreases |s|
  {
    if s != [] && t != [] && s[0] == t[0] {
      CompareTextAgrees(s[1..], t[1..]);
      TextBelowTail(s, t);
      TextBelowTail(t, s);
      assert s == [s[0]] + s[1..] && t == [t[0]] + t[1..];
    } else {
      TextHeads(s, t);
      TextHeads(t, s);
    }
  }

  lemma TextHeads(s: string, t: string)
    requires s == [] || t == [] || s[0] != t[0]
    ensures TextBelow(s, t) <==> t != [] && (s == [] || s[0] < t[0])
  {
    if t != [] && (s == [] || s[0] < t[0]) {
      assert TextParts(s, t, 0);
    }
    if k: nat :| TextParts(s, t, k) {
      assert k == 0;
    }
  }

  /** Comparing tuples of two items whose first are integers. */
  lemma ComparePairs(a: int, x: Py, b: int, y: Py)
    ensures Compare(Tuple([Int(a), x]), Tuple([Int(b), y])) == (if a != b then CompareInt(a, b) else Compare(x, y))
  {
    var p, q := Tuple([Int(a), x]), Tuple([Int(b), y]);
    assert Compare(p, q) == CompareFrom(p, q, 0);
    assert CompareFrom(p, q, 2) == Equal;
    assert p.items[1] == x && q.items[1] == y;
    assert CompareFrom(p, q, 1) == Compare(x, y);
    assert p.items[0] == Int(a) && q.items[0] == Int(b);
    assert Compare(p.items[0], q.items[0]) == CompareInt(a, b);
  }

  lemma IdsAgree(x: string, y: string)
    requires Canonical(x) && Canonical(y)
    ensures Compare(Encoded(x), Encoded(y)) == Less <==> IdBelow(x, y)
    ensures Compare(Encoded(x), Encoded(y)) == Greater <==> IdBelow(y, x)
    ensures Compare(Encoded(x), Encoded(y)) == Equal <==> x == y
    ensures Compare(Encoded(x), Encoded(y)) != TypeError
  {
    var a, p := if IsDigits(x) then 0 else 1, if IsDigits(x) then Int(Value(x)) else Str(x);
    var b, q := if IsDigits(y) then 0 else 1, if IsDigits(y) then Int(Value(y)) else Str(y);
    ComparePairs(a, p, b, q);
    if IsDigits(x) && IsDigits(y) && Value(x) == Value(y) {
      NumeralsDiffer(x, y);
    }
    if !IsDigits(x) && !IsDigits(y) {
      CompareTextAgrees(x, y);
    }
  }

  lemma IdIrreflexive(x: string)
    ensures !IdBelow(x, x)
  {
  }

  /** At the first position where the lists part, that position decides. */
  lemma ListDecides(xs: seq<string>, ys: seq<string>, k: nat)
    requires Alike(xs, ys, k)
    requires k == |xs| || k == |ys| || xs[k] != ys[k]
    ensures ListBelow(xs, ys) <==> k < |ys| && (k < |xs| ==> IdBelow(xs[k], ys[k]))
  {
    if j: nat :| ListParts(xs, ys, j) {
      if j < k {
        IdIrreflexive(xs[j]);
      }
      assert j == k;
    }
    if k < |ys| && (k < |xs| ==> IdBelow(xs[k], ys[k])) {
      assert ListParts(xs, ys, k);
    }
  }

  function Pre(ids: seq<string>): (p: Py) {
    Tuple([Int(0)] + EncodedList(ids) + [END])
  }

  /** The tuple holds, after its first item, the encoded identifiers and the end mark. */
  predicate Holds(a: Py, ids: seq<string>) {
    && a.Tuple? && |a.items| == |ids| + 2 && a.items[|ids| + 1] == END
    && forall j :: 1 <= j <= |ids| ==> a.items[j] == Encoded(ids[j - 1])
  }

  lemma PreHolds(ids: seq<string>)
    ensures Holds(Pre(ids), ids) && Pre(ids).items[0] == Int(0)
  {
  }

  lemma EndIsLeast(id: string)
    ensures Compare(END, Encoded(id)) == Less && Compare(Encoded(id), END) == Greater
    ensures Compare(END, END) == Equal
  {
    var e := Encoded(id);
    assert Compare(END.items[0], e.items[0]) == Less && Compare(e.items[0], END.items[0]) == Greater;
    assert Compare(END, e) == CompareFrom(END, e, 0) == Less;
    assert Compare(e, END) == CompareFrom(e, END, 0) == Greater;
    assert CompareFrom(END, END, 1) == Equal;
    assert Compare(END, END) == CompareFrom(END, END, 0);
  }

  /** How a comparison result answers both orders and equality. */
  ghost predicate Settles(o: Order, xs: seq<string>, ys: seq<string>) {
    && (o == Less <==> ListBelow(xs, ys)) && (o == Greater <==> ListBelow(ys, xs)) && (o == Equal <==> xs == ys)
    && o != TypeError
  }

  predicate AllCanonical(ids: seq<string>) {
    forall i :: 0 <= i < |ids| ==> Canonical(ids[i])
  }

  predicate Alike(xs: seq<string>, ys: seq<string>, k: nat) {
    k <= |xs| && k <= |ys| && forall i :: 0 <= i < k ==> xs[i] == ys[i]
  }

  /** How one more pair of items compares: the identifiers, or the end of a list against whatever is there. */
  lemma {:induction false} ItemsCompare(a: Py, xs: seq<string>, b: Py, ys: seq<string>, k: nat) returns (o: Order)
    requires Holds(a, xs) && Holds(b, ys) && k <= |xs| && k <= |ys| && AllCanonical(xs) && AllCanonical(ys)
    ensures o == Compare(a.items[k + 1], b.items[k + 1])
    ensures if k < |xs| && k < |ys| then
              (o == Less <==> IdBelow(xs[k], ys[k])) && (o == Greater <==> IdBelow(ys[k], xs[k]))
              && (o == Equal <==> xs[k] == ys[k]) && o != TypeError
            else o == if k < |ys| then Less else if k < |xs| then Greater else Equal
  {
    o := Compare(a.items[k + 1], b.items[k + 1]);
    if k < |xs| && k < |ys| {
      IdsAgree(xs[k], ys[k]);
    } else if k < |xs| {
      EndIsLeast(xs[k]);
    } else if k < |ys| {
      EndIsLeast(ys[k]);
    } else {
      EndIsLeast([]);
    }
  }

  /** Where the lists part, or one of them ends, the comparison there settles it. */
  lemma {:induction false} ListsPart(xs: seq<string>, ys: seq<string>, k: nat, o: Order)
    requires Alike(xs, ys, k)
    requires if k < |xs| && k < |ys| then
               xs[k] != ys[k] && (o == Less <==> IdBelow(xs[k], ys[k])) && (o == Greater <==> IdBelow(ys[k], xs[k]))
               && o != Equal && o != TypeError
             else o == if k < |ys| then Less else if k < |xs| then Greater else Equal
    ensures Settles(o, xs, ys)
  {
    ListDecides(xs, ys, k);
    ListDecides(ys, xs, k);
  }

  /** The comparison passes over equal items and stops at the first other one. */
  lemma {:induction false} Skips(a: Py, b: Py, k: nat)
    requires a.Tuple? && b.Tuple? && 1 <= k < |a.items| && k < |b.items|
    requires forall j :: 1 <= j < k ==> Compare(a.items[j], b.items[j]) == Equal
    ensures var o := Compare(a.items[k], b.items[k]);
            CompareFrom(a, b, 1) == if o == Equal then CompareFrom(a, b, k + 1) else o
  {
    if k > 1 {
      Skips(a, b, k - 1);
    }
  }

  /** Where two lists part, or one of them ends. */
  lemma Parting(xs: seq<string>, ys: seq<string>) returns (k: nat)
    ensures Alike(xs, ys, k) && (k == |xs| || k == |ys| || xs[k] != ys[k])
  {
    k := 0;
    while k < |xs| && k < |ys| && xs[k] == ys[k]
      invariant Alike(xs, ys, k)
    {
      k := k + 1;
    }
  }

  /** For lists of any length the comparison after the leading zero is the order of the lists. */
  lemma {:induction false} ListsAgree(a: Py, xs: seq<string>, b: Py, ys: seq<string>)
    requires Holds(a, xs) && Holds(b, ys) && AllCanonical(xs) && AllCanonical(ys)
    ensures Settles(CompareFrom(a, b, 1), xs, ys)
  {
    var k := Parting(xs, ys);
    forall j | 1 <= j < k + 1
      ensures Compare(a.items[j], b.items[j]) == Equal
    {
      var e := ItemsCompare(a, xs, b, ys, j - 1);
    }
    Skips(a, b, k + 1);
    var o := ItemsCompare(a, xs, b, ys, k);
    ListsPart(xs, ys, k, o);
  }

  lemma PrereleasesAgree(v: Version, w: Version)
    requires WellFormed(v) && WellFormed(w)
    ensures var o := Compare(Precedence(v).items[3], Precedence(w).items[3]);
            && (o == Less <==> PrereleaseBelow(v.prerelease, w.prerelease))
            && (o == Greater <==> PrereleaseBelow(w.prerelease, v.prerelease))
            && (o == Equal <==> v.prerelease == w.prerelease) && o != TypeError
  {
    var a, b := Precedence(v).items[3], Precedence(w).items[3];
    assert Compare(a, b) == CompareFrom(a, b, 0);
    if v.prerelease.Some? && w.prerelease.Some? {
      var xs, ys := v.prerelease.value, w.prerelease.value;
      assert a == Pre(xs) && b == Pre(ys);
      assert Compare(a.items[0], b.items[0]) == Equal;
      PreHolds(xs);
      PreHolds(ys);
      ListsAgree(a, xs, b, ys);
    } else if v.prerelease.None? && w.prerelease.None? {
      assert CompareFrom(a, b, 1) == Equal;
    } else if v.prerelease.Some? {
      PreHolds(v.prerelease.value);
      assert Compare(a.items[0], b.items[0]) == Less;
    } else {
      PreHolds(w.prerelease.value);
      assert Compare(a.items[0], b.items[0]) == Greater;
    }
  }

  /** Python's tuple comparison of precedences never fails, and is exactly the precedence of section 11. */
  lemma PrecedenceAgrees(v: Version, w: Version)
    requires WellFormed(v) && WellFormed(w)
    ensures Compare(Precedence(v), Precedence(w)) == Less <==> Below(v, w)
    ensures Compare(Precedence(v), Precedence(w)) == Greater <==> Below(w, v)
    ensures Compare(Precedence(v), Precedence(w)) == Equal <==> v == w
    ensures Compare(Precedence(v), Precedence(w)) != TypeError
  {
    var a, b := Precedence(v), Precedence(w);
    PrereleasesAgree(v, w);
    assert CompareFrom(a, b, 4) == Equal;
    assert CompareFrom(a, b, 3) == Compare(a.items[3], b.items[3]);
    assert CompareFrom(a, b, 2) == if v.patch != w.patch then CompareInt(v.patch, w.patch) else CompareFrom(a, b, 3);
    assert CompareFrom(a, b, 1) == if v.minor != w.minor then CompareInt(v.minor, w.minor) else CompareFrom(a, b, 2);
    assert CompareFrom(a, b, 0) == if v.major != w.major then CompareInt(v.major, w.major) else CompareFrom(a, b, 1);
  }

  // ---------------------------------------------------------------- a total order

  lemma TextTransitive(s: string, t: string, u: string)
    requires TextBelow(s, t) && TextBelow(t, u)
    ensures TextBelow(s, u)
  {
    var j: nat :| TextParts(s, t, j);
    var k: nat :| TextParts(t, u, k);
    assert TextParts(s, u, if j < k then j else k);
  }

  lemma IdTransitive(x: string, y: string, z: string)
    requires IdBelow(x, y) && IdBelow(y, z)
    ensures IdBelow(x, z)
  {
    if !IsDigits(x) {
      TextTransitive(x, y, z);
    }
  }

  lemma ListTransitive(xs: seq<string>, ys: seq<string>, zs: seq<string>)
    requires ListBelow(xs, ys) && ListBelow(ys, zs)
    ensures ListBelow(xs, zs)
  {
    var j: nat :| ListParts(xs, ys, j);
    var k: nat :| ListParts(ys, zs, k);
    if j == k && j < |xs| {
      IdTransitive(xs[j], ys[j], zs[j]);
    }
    assert ListParts(xs, zs, if j < k then j else k);
  }

  lemma BelowTransitive(u: Version, v: Version, w: Version)
    requires Below(u, v) && Below(v, w)
    ensures Below(u, w)
  {
    if PrereleaseBelow(u.prerelease, v.prerelease) && PrereleaseBelow(v.prerelease, w.prerelease)
       && v.prerelease.Some? && w.prerelease.Some? {
      ListTransitive(u.prerelease.value, v.prerelease.value, w.prerelease.value);
    }
  }

  /** Exactly one of below, equal and above. */
  lemma BelowTotal(v: Version, w: Version)
    requires WellFormed(v) && WellFormed(w)
    ensures v == w <==> !Below(v, w) && !Below(w, v)
    ensures !(Below(v, w) && Below(w, v))
  {
    PrecedenceAgrees(v, w);
  }
}
