/** `expand_braces` of `diff_hygiene.py`: innermost-first rewriting of text against the meaning read outermost-first. */
module BraceExpansion {
  import opened Lists

  // ---------------------------------------------------------------- the rewriting

  predicate Brace(c: char) {
    c == '{' || c == '}'
  }

  /** The characters Python counts as white space. */
  predicate Space(c: char) {
    || '\U{9}' <= c <= '\U{d}' || '\U{1c}' <= c <= '\U{20}' || c in {'\U{85}', '\U{a0}', '\U{1680}'}
    || '\U{2000}' <= c <= '\U{200a}' || c in {'\U{2028}', '\U{2029}', '\U{202f}', '\U{205f}', '\U{3000}'}
  }

  /** The code points of these characters, one by one. */
  const SPACES := {9, 10, 11, 12, 13, 28, 29, 30, 31, 32, 133, 160, 5760, 8192, 8193, 8194, 8195, 8196, 8197, 8198,
      8199,
                   8200, 8201, 8202, 8232, 8233, 8239, 8287, 12288}

  lemma SpaceExactly(c: char)
    ensures Space(c) <==> c as int in SPACES
  {
  }

  predicate BraceFree(s: string) {
    forall i :: 0 <= i < |s| ==> !Brace(s[i])
  }

  predicate CommaFree(s: string) {
    forall i :: 0 <= i < |s| ==> s[i] != ','
  }

  /** `str.strip`. */
  function Strip(s: string): (r: string)
    ensures |r| <= |s|
  {
    if s == [] then []
    else if Space(s[0]) then Strip(s[1..])
    else if Space(s[|s| - 1]) then Strip(s[..|s| - 1])
    else s
  }

  predicate Blank(s: string) {
    forall i :: 0 <= i < |s| ==> Space(s[i])
  }

  /** Nothing, or text without white space at either end. */
  predicate Tight(s: string) {
    s != [] ==> !Space(s[0]) && !Space(s[|s| - 1])
  }

  /** `r` is what is left of `s` without the white space around it. */
  ghost predicate StripsTo(s: string, r: string) {
    Tight(r) && exists a, b :: Around(s, a, r, b)
  }

  predicate Around(s: string, a: string, r: string, b: string) {
    s == a + r + b && Blank(a) && Blank(b)
  }

  lemma AroundFirst(s: string, a: string, r: string, b: string)
    requires s != [] && Space(s[0]) && Around(s[1..], a, r, b)
    ensures Around(s, [s[0]] + a, r, b)
  {
    assert s == [s[0]] + s[1..];
  }

  lemma AroundLast(s: string, a: string, r: string, b: string)
    requires s != [] && Space(s[|s| - 1]) && Around(s[..|s| - 1], a, r, b)
    ensures Around(s, a, r, b + [s[|s| - 1]])
  {
    assert s == s[..|s| - 1] + [s[|s| - 1]];
  }

  lemma {:induction false} StripAround(s: string) returns (a: string, b: string)
    ensures Around(s, a, Strip(s), b) && Tight(Strip(s))
    decreases |s|
  {
    if s == [] {
      a, b := [], [];
    } else if Space(s[0]) {
      a, b := StripAround(s[1..]);
      AroundFirst(s, a, Strip(s), b);
      a := [s[0]] + a;
    } else if Space(s[|s| - 1]) {
      a, b := StripAround(s[..|s| - 1]);
      AroundLast(s, a, Strip(s), b);
      b := b + [s[|s| - 1]];
    } else {
      a, b := [], [];
    }
  }

  lemma {:induction false} AroundStrips(s: string, a: string, r: string, b: string)
    requires Around(s, a, r, b) && Tight(r)
    ensures r == Strip(s)
    decreases |s|
  {
    if s != [] && Space(s[0]) {
      if a != [] {
        assert s[1..] == a[1..] + r + b;
        AroundStrips(s[1..], a[1..], r, b);
      } else {
        assert s[1..] == a + r + b[1..];
        AroundStrips(s[1..], a, r, b[1..]);
      }
    } else if s != [] && Space(s[|s| - 1]) {
      assert s[..|s| - 1] == a + r + b[..|b| - 1];
      AroundStrips(s[..|s| - 1], a, r, b[..|b| - 1]);
    }
  }

  /** `strip` takes off exactly the white space around the text, and in particular leaves nothing only of blanks. */
  lemma StripExactly(s: string, r: string)
    ensures StripsTo(s, r) <==> r == Strip(s)
    ensures Strip(s) == [] <==> Blank(s)
  {
    var a, b := StripAround(s);
    assert Around(s, a, Strip(s), b);
    if StripsTo(s, r) {
      var c, d :| Around(s, c, r, d);
      AroundStrips(s, c, r, d);
    }
    if Blank(s) {
      assert Around(s, s, [], []);
      AroundStrips(s, s, [], []);
    }
  }

  lemma StripTight(s: string)
    ensures BraceFree(s) ==> BraceFree(Strip(s))
    ensures CommaFree(s) ==> CommaFree(Strip(s))
    ensures Tight(Strip(s))
  {
    var a, b := StripAround(s);
    forall i | 0 <= i < |Strip(s)|
      ensures Strip(s)[i] == s[|a| + i]
    {
    }
  }

  /** `str.split(",")`. */
  function Split(s: string): (parts: seq<string>)
    ensures |parts| >= 1
    ensures forall k :: 0 <= k < |parts| ==> |parts[k]| <= |s|
  {
    if s == [] then [[]]
    else
      var rest := Split(s[1..]);
      if s[0] == ',' then [[]] + rest else [[s[0]] + rest[0]] + rest[1..]
  }

  /** The first brace at or after `i`, or the end. */
  function NextBrace(s: string, i: nat): (j: nat)
    requires i <= |s|
    ensures i <= j <= |s|
    ensures forall k :: i <= k < j ==> !Brace(s[k])
    ensures j < |s| ==> Brace(s[j])
    decreases |s| - i
  {
    if i == |s| || Brace(s[i]) then i else NextBrace(s, i + 1)
  }

  /** `re.search(r"\{([^{}]*)\}", s)` from `i` on: the first opening brace whose next brace closes it. */
  function Find(s: string, i: nat): (m: Option<(nat, nat)>)
    requires i <= |s|
    ensures m.Some? ==> i <= m.value.0 < m.value.1 < |s|
    decreases |s| - i
  {
    if i == |s| then None
    else
      var j := NextBrace(s, i + 1);
      if s[i] == '{' && j < |s| && s[j] == '}' then Some((i, j)) else Find(s, i + 1)
  }

  /** What the search finds is an opening brace, text without braces, and a closing one. */
  lemma {:induction false} FindExactly(s: string, i: nat)
    requires i <= |s| && Find(s, i).Some?
    ensures var (a, b) := Find(s, i).value; s[a] == '{' && s[b] == '}' && BraceFree(s[a + 1..b])
    decreases |s| - i
  {
    var j := NextBrace(s, i + 1);
    if !(s[i] == '{' && j < |s| && s[j] == '}') {
      FindExactly(s, i + 1);
    }
  }

  /** `expand_braces`. */
  function Expand(item: string): (paths: seq<string>)
    decreases |item|, 0, 0
  {
    var m := Find(item, 0);
    if m.None? then [item]
    else
      var (i, j) := m.value;
      ExpandAll(item[..i], Split(item[i + 1..j]), item[j + 1..], |item| - 1)
  }

  /** The comprehension over the parts; every text it goes on with is shorter. */
  function ExpandAll(head: string, parts: seq<string>, tail: string, limit: nat): (paths: seq<string>)
    requires forall k :: 0 <= k < |parts| ==> |head| + |parts[k]| + |tail| <= limit
    decreases limit, 1, |parts|
  {
    if parts == [] then []
    else Expand(head + Strip(parts[0]) + tail) + ExpandAll(head, parts[1..], tail, limit)
  }

  // ---------------------------------------------------------------- the meaning

  /** Text with well-formed braces. */
  datatype Text = End | Lit(c: char, rest: Text) | Group(alts: Alts, rest: Text)

  datatype Alts = One(t: Text) | More(t: Text, others: Alts)

  /** Braces stand only around groups, and commas inside one only between its alternatives. */
  predicate Valid(t: Text, inside: bool) {
    match t
    case End => true
    case Lit(c, rest) => !Brace(c) && (inside ==> c != ',') && Valid(rest, inside)
    case Group(alts, rest) => ValidAlts(alts) && Valid(rest, inside)
  }

  predicate ValidAlts(a: Alts) {
    match a
    case One(t) => Valid(t, true)
    case More(t, others) => Valid(t, true) && ValidAlts(others)
  }

  function Render(t: Text): (s: string) {
    match t
    case End => []
    case Lit(c, rest) => [c] + Render(rest)
    case Group(alts, rest) => "{" + RenderAlts(alts) + "}" + Render(rest)
  }

  function RenderAlts(a: Alts): (s: string) {
    match a
    case One(t) => Render(t)
    case More(t, others) => Render(t) + "," + RenderAlts(others)
  }

  /** Outermost first: a group means any of its alternatives, each stripped. */
  ghost function Meaning(t: Text): (m: set<string>)
    ensures m != {}
    ensures Valid(t, false) || Valid(t, true) ==> forall x :: x in m ==> BraceFree(x)
    ensures Valid(t, true) ==> forall x :: x in m ==> CommaFree(x)
  {
    match t
    case End => {[]}
    case Lit(c, rest) =>
      var m := Meaning(rest);
      var y :| y in m;
      var r := set x | x in m :: [c] + x;
      assert [c] + y in r;
      r
    case Group(alts, rest) =>
      var ms, m := MeaningAlts(alts), Meaning(rest);
      var a :| a in ms;
      var y :| y in m;
      var r := set a, x | a in ms && x in m :: a + x;
      assert a + y in r;
      r
  }

  ghost function MeaningAlts(a: Alts): (m: set<string>)
    ensures m != {}
    ensures ValidAlts(a) ==> forall x :: x in m ==> BraceFree(x) && CommaFree(x)
  {
    match a
    case One(t) => Stripped(Meaning(t))
    case More(t, others) => Stripped(Meaning(t)) + MeaningAlts(others)
  }

  lemma StrippedTight(m: set<string>)
    ensures forall x :: x in m && BraceFree(x) ==> BraceFree(Strip(x))
    ensures forall x :: x in m && CommaFree(x) ==> CommaFree(Strip(x))
  {
    forall x | x in m
      ensures BraceFree(x) ==> BraceFree(Strip(x))
      ensures CommaFree(x) ==> CommaFree(Strip(x))
    {
      StripTight(x);
    }
  }

  ghost function Stripped(m: set<string>): (r: set<string>)
    requires m != {}
    ensures r != {}
    ensures forall x :: x in r <==> exists y :: y in m && x == Strip(y)
    ensures (forall x :: x in m ==> BraceFree(x) && CommaFree(x)) ==> forall x :: x in r ==>
              BraceFree(x) && CommaFree(x)
  {
    StrippedTight(m);
    var y :| y in m;
    var r := set x | x in m :: Strip(x);
    assert Strip(y) in r;
    r
  }

  /** A stripped alternative is one of the alternatives without the white space around it. */
  lemma StrippedExactly(m: set<string>, x: string)
    requires m != {}
    ensures x in Stripped(m) <==> exists y :: y in m && StripsTo(y, x)
  {
    forall y | y in m
      ensures StripsTo(y, x) <==> x == Strip(y)
    {
      StripExactly(y, x);
    }
  }

  // ---------------------------------------------------------------- one step of the rewriting

  predicate NoClose(s: string) {
    forall i :: 0 <= i < |s| ==> s[i] != '}'
  }

  /** After text without a closing brace, the first brace-free group is what the search finds. */
  lemma {:induction false} FindsGroup(h: string, c: string, w: string, i: nat)
    requires NoClose(h) && BraceFree(c) && i <= |h|
    ensures Find(Wrap(h, c, w), i) == Some((|h|, |h| + 1 + |c|))
    decreases |h| - i
  {
    var s := Wrap(h, c, w);
    assert s[|h|] == '{' && s[|h| + 1 + |c|] == '}';
    assert forall k :: 0 <= k < |h| ==> s[k] == h[k];
    assert forall k :: 0 <= k < |c| ==> s[|h| + 1 + k] == c[k];
    var j := NextBrace(s, i + 1);
    if i < |h| {
      FindsGroup(h, c, w, i + 1);
    }
  }

  /** The texts that expand to a given string, among others. */
  ghost function Leading(y: string): (good: iset<string>) {
    iset item: string | y in Expand(item)
  }

  lemma {:induction false} ExpandAllLeads(head: string, parts: seq<string>, tail: string, limit: nat, y: string)
    requires forall k :: 0 <= k < |parts| ==> |head| + |parts[k]| + |tail| <= limit
    ensures y in ExpandAll(head, parts, tail, limit) <==>
              exists k :: 0 <= k < |parts| && head + Strip(parts[k]) + tail in Leading(y)
    decreases |parts|
  {
    if parts != [] {
      ExpandAllLeads(head, parts[1..], tail, limit, y);
      assert parts == [parts[0]] + parts[1..];
      if k :| 0 <= k < |parts[1..]| && head + Strip(parts[1..][k]) + tail in Leading(y) {
        assert parts[k + 1] == parts[1..][k];
      }
      if k :| 0 < k < |parts| && head + Strip(parts[k]) + tail in Leading(y) {
        assert parts[1..][k - 1] == parts[k];
      }
    }
  }

  function Wrap(h: string, c: string, w: string): (s: string) {
    h + "{" + c + "}" + w
  }

  lemma WrapSlices(h: string, c: string, w: string)
    ensures var s := Wrap(h, c, w);
            |s| == |h| + |c| + |w| + 2 && s[..|h|] == h && s[|h| + 1..|h| + 1 + |c|] == c && s[|h| + 2 + |c|..] == w
  {
  }

  /** Replacing any of the done parts, or the new one, by its stripped form stays in the set. */
  ghost predicate DoneIn(h: string, parts: seq<string>, w: string, good: iset<string>) {
    exists k :: 0 <= k < |parts| && h + Strip(parts[k]) + w in good
  }

  /** Membership passes between a text and the texts one step of the rewriting makes of it. */
  ghost predicate Rewritten(good: iset<string>) {
    forall h, c, w :: NoClose(h) && BraceFree(c) ==> (Wrap(h, c, w) in good <==> DoneIn(h, Split(c), w, good))
  }

  lemma {:induction false} ExpandsAt(item: string, h: string, c: string, w: string)
    requires |item| == |h| + |c| + |w| + 2 && Find(item, 0) == Some((|h|, |h| + 1 + |c|))
    requires item[..|h|] == h && item[|h| + 1..|h| + 1 + |c|] == c && item[|h| + 2 + |c|..] == w
    ensures Expand(item) == ExpandAll(h, Split(c), w, |h| + |c| + |w| + 1)
  {
    ExpandFound(item, |h|, |h| + 1 + |c|);
  }

  lemma {:induction false} ExpandFound(item: string, i: nat, j: nat)
    requires Find(item, 0) == Some((i, j))
    ensures i < j < |item|
    ensures Expand(item) == ExpandAll(item[..i], Split(item[i + 1..j]), item[j + 1..], |item| - 1)
  {
  }

  lemma {:induction false} LeadsAt(item: string, h: string, c: string, w: string, y: string)
    requires Expand(item) == ExpandAll(h, Split(c), w, |h| + |c| + |w| + 1)
    ensures item in Leading(y) <==> DoneIn(h, Split(c), w, Leading(y))
  {
    ExpandAllLeads(h, Split(c), w, |h| + |c| + |w| + 1, y);
  }

  lemma {:induction false} LeadsWrap(h: string, c: string, w: string, y: string)
    requires NoClose(h) && BraceFree(c)
    ensures Wrap(h, c, w) in Leading(y) <==> DoneIn(h, Split(c), w, Leading(y))
  {
    var item := Wrap(h, c, w);
    FindsGroup(h, c, w, 0);
    WrapSlices(h, c, w);
    ExpandsAt(item, h, c, w);
    LeadsAt(item, h, c, w, y);
  }

  /** Expanding text whose first group is brace-free puts each of its stripped parts in its place. */
  lemma LeadingRewritten(y: string)
    ensures Rewritten(Leading(y))
  {
    forall h, c, w | NoClose(h) && BraceFree(c)
      ensures Wrap(h, c, w) in Leading(y) <==> DoneIn(h, Split(c), w, Leading(y))
    {
      LeadsWrap(h, c, w, y);
    }
  }

  // ---------------------------------------------------------------- finished alternatives

  /** Finished alternatives in front of the rest of a group, each with its comma. */
  function Joined(done: seq<string>): (s: string) {
    if done == [] then [] else done[0] + "," + Joined(done[1..])
  }

  predicate Plain(done: seq<string>) {
    forall i :: 0 <= i < |done| ==> BraceFree(done[i]) && CommaFree(done[i])
  }

  lemma {:induction false} JoinedPlain(done: seq<string>)
    requires Plain(done)
    ensures BraceFree(Joined(done))
    decreases |done|
  {
    if done != [] {
      JoinedPlain(done[1..]);
    }
  }

  lemma {:induction false} JoinedMore(done: seq<string>, x: string)
    ensures Joined(done + [x]) == Joined(done) + x + ","
    decreases |done|
  {
    if done == [] {
      assert (done + [x])[1..] == [];
    } else {
      JoinedMore(done[1..], x);
      assert (done + [x])[1..] == done[1..] + [x];
    }
  }

  lemma {:induction false} SplitPlain(x: string)
    requires CommaFree(x)
    ensures Split(x) == [x]
    decreases |x|
  {
    if x != [] {
      SplitPlain(x[1..]);
      assert [x[0]] + x[1..] == x;
    }
  }

  lemma {:induction false} SplitComma(d: string, rest: string)
    requires CommaFree(d)
    ensures Split(d + "," + rest) == [d] + Split(rest)
    decreases |d|
  {
    var s := d + "," + rest;
    if d == [] {
      assert s[1..] == rest;
    } else {
      SplitComma(d[1..], rest);
      assert s[1..] == d[1..] + "," + rest;
      assert [s[0]] + d[1..] == d;
    }
  }

  /** Splitting undoes the joining. */
  lemma {:induction false} SplitJoined(done: seq<string>, x: string)
    requires Plain(done) && CommaFree(x)
    ensures Split(Joined(done) + x) == done + [x]
    decreases |done|
  {
    if done == [] {
      SplitPlain(x);
      assert Joined(done) + x == x;
    } else {
      SplitJoined(done[1..], x);
      SplitComma(done[0], Joined(done[1..]) + x);
      assert Joined(done) + x == done[0] + "," + (Joined(done[1..]) + x);
    }
  }

  // ---------------------------------------------------------------- the two readings agree

  /** Putting some member in the place gives a text of the set. */
  ghost predicate SomeIn(h: string, m: set<string>, w: string, good: iset<string>) {
    exists x :: x in m && h + x + w in good
  }

  lemma DoneMore(h: string, done: seq<string>, x: string, w: string, good: iset<string>)
    ensures DoneIn(h, done + [x], w, good) <==> DoneIn(h, done, w, good) || h + Strip(x) + w in good
  {
    var parts := done + [x];
    assert parts[|done|] == x;
    if k :| 0 <= k < |done| && h + Strip(done[k]) + w in good {
      assert parts[k] == done[k];
    }
  }

  /** A group whose last alternative is finished too. */
  lemma LastIn(h: string, done: seq<string>, x: string, w: string, good: iset<string>)
    requires Rewritten(good) && NoClose(h) && Plain(done) && BraceFree(x) && CommaFree(x)
    ensures h + "{" + Joined(done) + x + ("}" + w) in good <==> DoneIn(h, done, w, good) || h + Strip(x) + w in good
  {
    JoinedPlain(done);
    SplitJoined(done, x);
    assert h + "{" + Joined(done) + x + ("}" + w) == Wrap(h, Joined(done) + x, w);
    assert BraceFree(Joined(done) + x);
    DoneMore(h, done, x, w, good);
  }

  /** Text before which nothing closes stands for each of the strings it means. */
  lemma {:induction false} TextIn(h: string, t: Text, inside: bool, w: string, good: iset<string>)
    requires Rewritten(good) && NoClose(h) && Valid(t, inside)
    ensures h + Render(t) + w in good <==> SomeIn(h, Meaning(t), w, good)
    decreases t, 1
  {
    match t
    case End =>
      assert Render(t) == [];
      assert [] in Meaning(t);
    case Lit(c, rest) =>
      assert h + Render(t) + w == (h + [c]) + Render(rest) + w;
      TextIn(h + [c], rest, inside, w, good);
      LitIn(h, c, Meaning(rest), Meaning(t), w, good);
    case Group(alts, rest) =>
      GroupIn(h, alts, rest, inside, w, good);
  }

  lemma LitIn(h: string, c: char, m: set<string>, all: set<string>, w: string, good: iset<string>)
    requires all == set x | x in m :: [c] + x
    ensures SomeIn(h + [c], m, w, good) <==> SomeIn(h, all, w, good)
  {
    if x :| x in m && (h + [c]) + x + w in good {
      assert [c] + x in all;
      assert h + ([c] + x) + w == (h + [c]) + x + w;
    }
    if z :| z in all && h + z + w in good {
      var x :| x in m && z == [c] + x;
      assert h + ([c] + x) + w == (h + [c]) + x + w;
    }
  }

  lemma RegroupGroup(h: string, alts: string, rest: string, w: string)
    ensures h + ("{" + alts + "}" + rest) + w == h + "{" + [] + alts + ("}" + (rest + w))
  {
  }

  lemma RegroupAlt(h: string, a: string, rest: string, w: string)
    ensures (h + a) + rest + w == h + a + (rest + w)
  {
  }

  /** After one alternative is chosen, the rest of the text stands for what it means. */
  lemma {:induction false} RestIn(h: string, a: string, rest: Text, inside: bool, w: string, good: iset<string>)
    requires Rewritten(good) && NoClose(h) && BraceFree(a) && Valid(rest, inside)
    ensures h + a + (Render(rest) + w) in good <==> SomeIn(h + a, Meaning(rest), w, good)
    decreases rest, 2
  {
    TextIn(h + a, rest, inside, w, good);
    RegroupAlt(h, a, Render(rest), w);
  }

  /** A whole group stands for its alternatives, whatever follows it. */
  lemma {:induction false} WholeIn(h: string, alts: Alts, rest: string, w: string, good: iset<string>)
    requires Rewritten(good) && NoClose(h) && ValidAlts(alts)
    ensures h + ("{" + RenderAlts(alts) + "}" + rest) + w in good <==> SomeIn(h, MeaningAlts(alts), rest + w, good)
    decreases alts, 4
  {
    AltsIn(h, [], alts, rest + w, good);
    RegroupGroup(h, RenderAlts(alts), rest, w);
  }

  lemma {:induction false} GroupIn(h: string, alts: Alts, rest: Text, inside: bool, w: string, good: iset<string>)
    requires Rewritten(good) && NoClose(h) && ValidAlts(alts) && Valid(rest, inside)
    ensures h + Render(Group(alts, rest)) + w in good <==> SomeIn(h, Meaning(Group(alts, rest)), w, good)
    decreases Group(alts, rest), 0
  {
    WholeIn(h, alts, Render(rest), w, good);
    var ms, m := MeaningAlts(alts), Meaning(rest);
    forall a | a in ms
      ensures h + a + (Render(rest) + w) in good <==> SomeIn(h + a, m, w, good)
    {
      RestIn(h, a, rest, inside, w, good);
    }
    ProductIn(h, ms, m, Meaning(Group(alts, rest)), w, Render(rest) + w, good);
  }

  lemma ProductIn(h: string, ms: set<string>, m: set<string>, all: set<string>, w: string, w': string,
                  good: iset<string>)
    requires all == set a, x | a in ms && x in m :: a + x
    requires forall a :: a in ms ==> (h + a + w' in good <==> SomeIn(h + a, m, w, good))
    ensures SomeIn(h, ms, w', good) <==> SomeIn(h, all, w, good)
  {
    if a :| a in ms && h + a + w' in good {
      var x :| x in m && (h + a) + x + w in good;
      assert a + x in all;
      assert h + (a + x) + w == (h + a) + x + w;
    }
    if z :| z in all && h + z + w in good {
      var a, x :| a in ms && x in m && z == a + x;
      assert h + (a + x) + w == (h + a) + x + w;
      assert SomeIn(h + a, m, w, good);
    }
  }

  /** A group with some alternatives finished and the others still to expand. */
  lemma {:induction false} AltsIn(h: string, done: seq<string>, alts: Alts, w: string, good: iset<string>)
    requires Rewritten(good) && NoClose(h) && Plain(done) && ValidAlts(alts)
    ensures h + "{" + Joined(done) + RenderAlts(alts) + ("}" + w) in good <==>
              DoneIn(h, done, w, good) || SomeIn(h, MeaningAlts(alts), w, good)
    decreases alts, 2
  {
    var h' := h + "{" + Joined(done);
    JoinedPlain(done);
    match alts
    case One(t) =>
      TextIn(h', t, true, "}" + w, good);
      forall x | x in Meaning(t)
        ensures h' + x + ("}" + w) in good <==> DoneIn(h, done, w, good) || h + Strip(x) + w in good
      {
        LastIn(h, done, x, w, good);
      }
      StripIn(h, h', Meaning(t), "}" + w, w, DoneIn(h, done, w, good), good);
    case More(t, others) =>
      MoreIn(h, done, t, others, w, good);
  }

  lemma Regroup(h: string, t: string, others: string, w: string)
    ensures h + (t + "," + others) + ("}" + w) == h + t + ("," + others + ("}" + w))
  {
  }

  lemma RegroupDone(h: string, joined: string, x: string, others: string, w: string)
    ensures (h + "{" + joined) + x + ("," + others + ("}" + w)) == h + "{" + (joined + x + ",") + others + ("}" + w)
  {
  }

  lemma {:induction false} MoreIn(h: string, done: seq<string>, t: Text, others: Alts, w: string, good: iset<string>)
    requires Rewritten(good) && NoClose(h) && Plain(done) && Valid(t, true) && ValidAlts(others)
    ensures h + "{" + Joined(done) + RenderAlts(More(t, others)) + ("}" + w) in good <==>
              DoneIn(h, done, w, good) || SomeIn(h, MeaningAlts(More(t, others)), w, good)
    decreases More(t, others), 1
  {
    var h' := h + "{" + Joined(done);
    var w' := "," + RenderAlts(others) + ("}" + w);
    JoinedPlain(done);
    Regroup(h', Render(t), RenderAlts(others), w);
    TextIn(h', t, true, w', good);
    var shared := DoneIn(h, done, w, good) || SomeIn(h, MeaningAlts(others), w, good);
    forall x | x in Meaning(t)
      ensures h' + x + w' in good <==> shared || h + Strip(x) + w in good
    {
      OneMoreDone(h, done, x, others, w, good);
    }
    StripIn(h, h', Meaning(t), w', w, shared, good);
  }

  lemma {:induction false} OneMoreDone(h: string, done: seq<string>, x: string, others: Alts, w: string,
                                       good: iset<string>)
    requires Rewritten(good) && NoClose(h) && Plain(done) && BraceFree(x) && CommaFree(x) && ValidAlts(others)
    ensures (h + "{" + Joined(done)) + x + ("," + RenderAlts(others) + ("}" + w)) in good <==>
              (DoneIn(h, done, w, good) || SomeIn(h, MeaningAlts(others), w, good)) || h + Strip(x) + w in good
    decreases others, 3
  {
    AltsIn(h, done + [x], others, w, good);
    JoinedMore(done, x);
    RegroupDone(h, Joined(done), x, RenderAlts(others), w);
    DoneMore(h, done, x, w, good);
  }

  /** Some member, put in the place, gives a text of the set: by its own stripped form, or by what all share. */
  lemma StripIn(h: string, h': string, m: set<string>, w': string, w: string, shared: bool, good: iset<string>)
    requires m != {}
    requires forall x :: x in m ==> (h' + x + w' in good <==> shared || h + Strip(x) + w in good)
    ensures SomeIn(h', m, w', good) <==> shared || SomeIn(h, Stripped(m), w, good)
  {
    var some :| some in m;
    if z :| z in Stripped(m) && h + z + w in good {
      var x :| x in m && z == Strip(x);
      assert h' + x + w' in good;
    }
    if x :| x in m && h + Strip(x) + w in good {
      assert Strip(x) in Stripped(m);
    }
    if shared {
      assert h' + some + w' in good;
    }
  }

  lemma {:induction false} FindsNothing(s: string, i: nat)
    requires BraceFree(s) && i <= |s|
    ensures Find(s, i) == None
    decreases |s| - i
  {
    if i < |s| {
      FindsNothing(s, i + 1);
    }
  }

  /** For well-formed braces nested to any depth, innermost-first expansion gives exactly the strings the text means
      outermost-first. */
  lemma ExpandIsMeaning(t: Text)
    requires Valid(t, false)
    ensures (set y | y in Expand(Render(t))) == Meaning(t)
  {
    forall y
      ensures y in Expand(Render(t)) <==> y in Meaning(t)
    {
      LeadingRewritten(y);
      TextIn([], t, false, [], Leading(y));
      assert [] + Render(t) + [] == Render(t);
      forall x | x in Meaning(t)
        ensures [] + x + [] in Leading(y) <==> y == x
      {
        FindsNothing(x, 0);
        assert [] + x + [] == x;
      }
    }
  }

  // ---------------------------------------------------------------- every balanced text is covered

  /** Braces from depth `d` on never close more than is open, and all close at the end. */
  predicate Closes(s: string, d: nat) {
    if s == [] then d == 0
    else if s[0] == '{' then Closes(s[1..], d + 1)
    else if s[0] == '}' then d > 0 && Closes(s[1..], d - 1)
    else Closes(s[1..], d)
  }

  lemma Reassemble(s: string, alts: string, after: string, text: string, rest: string)
    requires s != [] && s[0] == '{' && s[1..] == alts + after && after != [] && after[0] == '}'
               && after[1..] == text + rest
    ensures s == "{" + alts + "}" + text + rest
  {
    assert after == "}" + after[1..];
    assert s == "{" + s[1..];
  }

  /** A text up to where its own level ends. */
  lemma {:induction false} ReadText(s: string, d: nat) returns (t: Text, rest: string)
    requires Closes(s, d)
    ensures Valid(t, d > 0) && s == Render(t) + rest && Closes(rest, d)
    ensures rest == [] || rest[0] == '}' || (d > 0 && rest[0] == ',')
    decreases |s|, 0
  {
    if s == [] || s[0] == '}' || (d > 0 && s[0] == ',') {
      t, rest := End, s;
    } else if s[0] == '{' {
      var alts, after := ReadAlts(s[1..], d + 1);
      var t', rest' := ReadText(after[1..], d);
      t, rest := Group(alts, t'), rest';
      Reassemble(s, RenderAlts(alts), after, Render(t'), rest');
    } else {
      var t', rest' := ReadText(s[1..], d);
      t, rest := Lit(s[0], t'), rest';
      assert s == [s[0]] + s[1..];
    }
  }

  lemma {:induction false} ReadAlts(s: string, d: nat) returns (alts: Alts, rest: string)
    requires Closes(s, d) && d > 0
    ensures ValidAlts(alts) && s == RenderAlts(alts) + rest && Closes(rest, d)
    ensures rest != [] && rest[0] == '}'
    decreases |s|, 1
  {
    var t, after := ReadText(s, d);
    if after[0] == '}' {
      alts, rest := One(t), after;
    } else {
      var others, rest' := ReadAlts(after[1..], d);
      alts, rest := More(t, others), rest';
      assert after == [','] + after[1..];
    }
  }

  /** Every string with balanced braces is such a text, so expansion gives its meaning. */
  lemma BalancedIsCovered(s: string) returns (t: Text)
    requires Closes(s, 0)
    ensures Valid(t, false) && Render(t) == s
    ensures (set y | y in Expand(s)) == Meaning(t)
  {
    var rest;
    t, rest := ReadText(s, 0);
    assert rest == [];
    assert Render(t) + [] == Render(t);
    ExpandIsMeaning(t);
  }

  lemma {:induction false} TextCloses(t: Text, inside: bool, s: string, d: nat)
    requires Valid(t, inside) && Closes(s, d)
    ensures Closes(Render(t) + s, d)
    decreases t
  {
    match t
    case End =>
      assert Render(t) + s == s;
    case Lit(c, rest) =>
      TextCloses(rest, inside, s, d);
      assert (Render(t) + s)[1..] == Render(rest) + s;
    case Group(alts, rest) =>
      TextCloses(rest, inside, s, d);
      var after := ['}'] + (Render(rest) + s);
      assert after[1..] == Render(rest) + s;
      AltsClose(alts, after, d + 1);
      assert (Render(t) + s)[1..] == RenderAlts(alts) + after;
  }

  lemma {:induction false} AltsClose(a: Alts, s: string, d: nat)
    requires ValidAlts(a) && Closes(s, d)
    ensures Closes(RenderAlts(a) + s, d)
    decreases a
  {
    match a
    case One(t) => TextCloses(t, true, s, d);
    case More(t, others) =>
      AltsClose(others, s, d);
      var after := [','] + (RenderAlts(others) + s);
      assert after[1..] == RenderAlts(others) + s;
      TextCloses(t, true, after, d);
      assert RenderAlts(a) + s == Render(t) + after;
  }

  /** And only balanced strings are. */
  lemma CoveredIsBalanced(t: Text)
    requires Valid(t, false)
    ensures Closes(Render(t), 0)
  {
    TextCloses(t, false, [], 0);
    assert Render(t) + [] == Render(t);
  }

  // ---------------------------------------------------------------- one pair a call

  function Opens(s: string): (n: nat) {
    if s == [] then 0 else Opens(s[1..]) + if s[0] == '{' then 1 else 0
  }

  lemma {:induction false} OpensAppend(a: string, b: string)
    ensures Opens(a + b) == Opens(a) + Opens(b)
    decreases |a|
  {
    if a == [] {
      assert a + b == b;
    } else {
      OpensAppend(a[1..], b);
      assert (a + b)[1..] == a[1..] + b;
    }
  }

  lemma {:induction false} OpensFree(s: string)
    requires BraceFree(s)
    ensures Opens(s) == 0
  {
    if s != [] {
      OpensFree(s[1..]);
    }
  }

  lemma {:induction false} SplitFree(s: string, k: nat)
    requires BraceFree(s) && k < |Split(s)|
    ensures BraceFree(Split(s)[k])
    decreases |s|
  {
    if s != [] {
      if s[0] == ',' {
        if k > 0 {
          SplitFree(s[1..], k - 1);
        }
      } else {
        SplitFree(s[1..], k);
      }
    }
  }

  /** Whatever the text, each text a call goes on with has exactly one opening brace fewer, and a text without a
      match is returned as it is. */
  lemma {:induction false} OnePairPerCall(item: string, k: nat)
    requires Find(item, 0).Some?
    requires var (i, j) := Find(item, 0).value; k < |Split(item[i + 1..j])|
    ensures var (i, j) := Find(item, 0).value;
            Opens(item[..i] + Strip(Split(item[i + 1..j])[k]) + item[j + 1..]) == Opens(item) - 1
  {
    var (i, j) := Find(item, 0).value;
    FindExactly(item, 0);
    var head, c, tail := item[..i], item[i + 1..j], item[j + 1..];
    assert item == Wrap(head, c, tail);
    SplitFree(c, k);
    StripTight(Split(c)[k]);
    OpensWrap(head, c, tail);
    OpensFree(Strip(Split(c)[k]));
    OpensThree(head, Strip(Split(c)[k]), tail);
  }

  lemma {:induction false} OpensWrap(h: string, c: string, w: string)
    requires BraceFree(c)
    ensures Opens(Wrap(h, c, w)) == Opens(h) + 1 + Opens(w)
  {
    assert Wrap(h, c, w) == (h + "{") + c + ("}" + w);
    OpensThree(h + "{", c, "}" + w);
    OpensFree(c);
    OpensAppend(h, "{");
    OpensAppend("}", w);
    assert Opens("{") == 1 && Opens("}") == 0;
  }

  lemma OpensThree(a: string, b: string, c: string)
    ensures Opens(a + b + c) == Opens(a) + Opens(b) + Opens(c)
  {
    OpensAppend(a + b, c);
    OpensAppend(a, b);
  }
}
