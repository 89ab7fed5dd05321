/**
 * `strip_noise`: Rust text without comments and with every literal emptied. The lexer is proved
 * against a grammar of regions, with nested block comments given by their own syntax trees.
 */
module RustLexer {
  import opened Lists

  predicate Ident(c: char) {
    'a' <= c <= 'z' || 'A' <= c <= 'Z' || '0' <= c <= '9' || c == '_'
  }

  /** `text.startswith(p, i)`. */
  predicate StartsAt(t: string, i: nat, p: string) {
    i + |p| <= |t| && t[i..i + |p|] == p
  }

  predicate PrevIdent(t: string, i: nat) {
    0 < i <= |t| && Ident(t[i - 1])
  }

  /** `text.find(p, i)`: the first position at or after `i` where `p` starts. */
  function Find(t: string, p: string, i: nat): (r: Option<nat>)
    requires p != []
    ensures r.Some? ==> i <= r.value && StartsAt(t, r.value, p) && forall j: nat :: i <= j < r.value ==>
              !StartsAt(t, j, p)
    ensures r.None? ==> forall j: nat :: i <= j ==> !StartsAt(t, j, p)
    decreases |t| - i
  {
    if i >= |t| then None
    else if StartsAt(t, i, p) then Some(i)
    else Find(t, p, i + 1)
  }

  // ---------------------------------------------------------------- nested block comments

  /** The two characters at `i` are `a` and `b`. */
  predicate Pair(t: string, i: nat, a: char, b: char) {
    i + 1 < |t| && t[i] == a && t[i + 1] == b
  }

  /** End of the comment text from `i` once `depth` open comments have been closed. */
  function Close(t: string, i: nat, depth: nat): (end: Option<nat>)
    ensures end.Some? && i <= |t| ==> i <= end.value <= |t|
    decreases |t| - i, depth
  {
    if depth == 0 then Some(i)
    else if i >= |t| then None
    else if Pair(t, i, '/', '*') then Close(t, i + 2, depth + 1)
    else if Pair(t, i, '*', '/') then Close(t, i + 2, depth - 1)
    else Close(t, i + 1, depth)
  }

  /** What follows an opener: the closer, one plain character, or a whole nested comment. */
  datatype Body = End | Plain(c: char, rest: Body) | Nest(inner: Body, rest: Body)

  function Render(b: Body): (s: string)
    ensures |s| >= 2
  {
    match b
    case End => "*/"
    case Plain(c, rest) => [c] + Render(rest)
    case Nest(inner, rest) => "/*" + Render(inner) + Render(rest)
  }

  /** A plain character may begin neither an opener nor a closer. */
  predicate Proper(b: Body) {
    match b
    case End => true
    case Plain(c, rest) =>
      Proper(rest) && !Pair(Render(b), 0, '/', '*') && !Pair(Render(b), 0, '*', '/')
    case Nest(inner, rest) => Proper(inner) && Proper(rest)
  }

  lemma PartOf(t: string, i: nat, r: string, a: nat, b: nat)
    requires StartsAt(t, i, r) && a <= b <= |r|
    ensures StartsAt(t, i + a, r[a..b])
  {
    forall x | 0 <= x < b - a
      ensures t[i + a..i + b][x] == r[a..b][x]
    {
      assert t[i..i + |r|][a + x] == r[a + x];
    }
  }

  lemma LookAhead(t: string, i: nat, r: string, a: char, b: char)
    requires StartsAt(t, i, r) && |r| >= 2
    ensures Pair(t, i, a, b) <==> Pair(r, 0, a, b)
  {
    assert t[i..i + |r|][0] == t[i] && t[i..i + |r|][1] == t[i + 1];
  }

  /** The positions and depths from which the scan comes to a given end. */
  ghost function Reaching(t: string, end: Option<nat>): (good: iset<(nat, nat)>) {
    iset i: nat, d: nat | Close(t, i, d) == end :: (i, d)
  }

  /** One step of the scan keeps membership. */
  ghost predicate ScanAt(t: string, good: iset<(nat, nat)>, i: nat, d: nat) {
    i < |t| && d > 0 ==>
      ((i, d) in good <==>
        if Pair(t, i, '/', '*') then (i + 2, d + 1) in good
        else if Pair(t, i, '*', '/') then (i + 2, d - 1) in good
        else (i + 1, d) in good)
  }

  ghost predicate Scans(t: string, good: iset<(nat, nat)>) {
    forall i: nat, d: nat :: ScanAt(t, good, i, d)
  }

  lemma ReachingScans(t: string, end: Option<nat>)
    ensures Scans(t, Reaching(t, end))
  {
    forall i: nat, d: nat
      ensures ScanAt(t, Reaching(t, end), i, d)
    {
    }
  }

  lemma EndIn(t: string, i: nat, depth: nat, good: iset<(nat, nat)>)
    requires depth > 0 && StartsAt(t, i, Render(End)) && ScanAt(t, good, i, depth)
    ensures (i, depth) in good <==> (i + 2, depth - 1) in good
  {
    LookAhead(t, i, Render(End), '/', '*');
    LookAhead(t, i, Render(End), '*', '/');
  }

  lemma {:induction false} PlainIn(t: string, i: nat, c: char, rest: Body, depth: nat, good: iset<(nat, nat)>)
    requires depth > 0 && Proper(Plain(c, rest)) && StartsAt(t, i, Render(Plain(c, rest))) && ScanAt(t, good, i, depth)
    ensures StartsAt(t, i + 1, Render(rest)) && ((i, depth) in good <==> (i + 1, depth) in good)
    ensures |Render(Plain(c, rest))| == 1 + |Render(rest)|
  {
    var r := Render(Plain(c, rest));
    LookAhead(t, i, r, '/', '*');
    LookAhead(t, i, r, '*', '/');
    PartOf(t, i, r, 1, |r|);
    assert r[1..|r|] == Render(rest);
  }

  lemma {:induction false} NestIn(t: string, i: nat, inner: Body, rest: Body, depth: nat, good: iset<(nat, nat)>)
    requires depth > 0 && StartsAt(t, i, Render(Nest(inner, rest))) && ScanAt(t, good, i, depth)
    ensures (i, depth) in good <==> (i + 2, depth + 1) in good
    ensures |Render(Nest(inner, rest))| == 2 + |Render(inner)| + |Render(rest)|
  {
    LookAhead(t, i, Render(Nest(inner, rest)), '/', '*');
  }

  lemma Slices(open: string, a: string, b: string)
    requires |open| == 2
    ensures var r := open + a + b; r[2..2 + |a|] == a && r[2 + |a|..|r|] == b
  {
  }

  lemma {:induction false} NestParts(t: string, i: nat, inner: Body, rest: Body)
    requires StartsAt(t, i, Render(Nest(inner, rest)))
    ensures StartsAt(t, i + 2, Render(inner)) && StartsAt(t, i + 2 + |Render(inner)|, Render(rest))
  {
    var r, m := Render(Nest(inner, rest)), 2 + |Render(inner)|;
    Slices("/*", Render(inner), Render(rest));
    PartOf(t, i, r, 2, m);
    PartOf(t, i, r, m, |r|);
  }

  lemma {:induction false} PlainStep(t: string, i: nat, c: char, rest: Body, depth: nat, good: iset<(nat, nat)>)
    requires depth > 0 && Proper(Plain(c, rest)) && StartsAt(t, i, Render(Plain(c, rest))) && ScanAt(t, good, i, depth)
    requires StartsAt(t, i + 1, Render(rest)) ==>
               ((i + 1, depth) in good <==> (i + 1 + |Render(rest)|, depth - 1) in good)
    ensures (i, depth) in good <==> (i + |Render(Plain(c, rest))|, depth - 1) in good
  {
    PlainIn(t, i, c, rest, depth, good);
  }

  lemma {:induction false} NestStep(t: string, i: nat, inner: Body, rest: Body, depth: nat, good: iset<(nat, nat)>,
                                    m: nat)
    requires depth > 0 && StartsAt(t, i, Render(Nest(inner, rest))) && ScanAt(t, good, i, depth)
    requires (i + 2, depth + 1) in good <==> (m, depth) in good
    requires m == i + 2 + |Render(inner)| && ((m, depth) in good <==> (m + |Render(rest)|, depth - 1) in good)
    ensures (i, depth) in good <==> (i + |Render(Nest(inner, rest))|, depth - 1) in good
  {
    NestIn(t, i, inner, rest, depth, good);
  }

  /** A rendered tree is consumed exactly, closing one level. */
  lemma {:induction false} RenderedIn(t: string, i: nat, b: Body, depth: nat, good: iset<(nat, nat)>)
    requires Proper(b) && depth > 0 && StartsAt(t, i, Render(b)) && Scans(t, good)
    ensures (i, depth) in good <==> (i + |Render(b)|, depth - 1) in good
    decreases b
  {
    assert ScanAt(t, good, i, depth);
    match b
    case End =>
      EndIn(t, i, depth, good);
    case Plain(c, rest) =>
      PlainIn(t, i, c, rest, depth, good);
      RenderedIn(t, i + 1, rest, depth, good);
      PlainStep(t, i, c, rest, depth, good);
    case Nest(inner, rest) =>
      NestParts(t, i, inner, rest);
      var m := i + 2 + |Render(inner)|;
      RenderedIn(t, i + 2, inner, depth + 1, good);
      RenderedIn(t, m, rest, depth, good);
      NestStep(t, i, inner, rest, depth, good, m);
  }

  lemma RenderedCloses(t: string, i: nat, b: Body)
    requires Proper(b) && StartsAt(t, i, Render(b))
    ensures Close(t, i, 1) == Some(i + |Render(b)|)
  {
    var end := Some(i + |Render(b)|);
    ReachingScans(t, end);
    RenderedIn(t, i, b, 1, Reaching(t, end));
    assert Close(t, i + |Render(b)|, 0) == end;
  }

  lemma Splits(t: string, i: nat, m: nat, k: nat)
    requires i <= m <= k <= |t|
    ensures t[i..k] == t[i..m] + t[m..k]
  {
  }

  lemma NestRendered(t: string, i: nat, m: nat, k: nat, inner: Body, rest: Body)
    requires i + 2 <= m <= k <= |t| && Pair(t, i, '/', '*') && t[i + 2..m] == Render(inner) && t[m..k] == Render(rest)
    ensures t[i..k] == Render(Nest(inner, rest))
  {
    assert t[i..i + 2] == "/*";
    Splits(t, i, i + 2, m);
    Splits(t, i, m, k);
  }

  lemma PlainRendered(t: string, i: nat, k: nat, rest: Body)
    requires i + 1 <= k <= |t| && t[i + 1..k] == Render(rest) && Proper(rest)
    requires !Pair(t, i, '/', '*') && !Pair(t, i, '*', '/')
    ensures t[i..k] == Render(Plain(t[i], rest)) && Proper(Plain(t[i], rest))
  {
    assert t[i..k] == [t[i]] + t[i + 1..k];
    LookAhead(t, i, t[i..k], '/', '*');
    LookAhead(t, i, t[i..k], '*', '/');
  }

  /** Whatever the scan closes is the rendering of a proper tree. */
  lemma {:induction false} ClosedIsRendered(t: string, i: nat, depth: nat, end: nat) returns (b: Body, k: nat)
    requires i <= |t| && depth > 0 && Close(t, i, depth) == Some(end)
    ensures Proper(b) && i < k <= end <= |t| && t[i..k] == Render(b) && Close(t, k, depth - 1) == Some(end)
    decreases |t| - i
  {
    if Pair(t, i, '/', '*') {
      var inner, m := ClosedIsRendered(t, i + 2, depth + 1, end);
      var rest;
      rest, k := ClosedIsRendered(t, m, depth, end);
      b := Nest(inner, rest);
      NestRendered(t, i, m, k, inner, rest);
    } else if Pair(t, i, '*', '/') {
      b, k := End, i + 2;
    } else {
      var rest;
      rest, k := ClosedIsRendered(t, i + 1, depth, end);
      b := Plain(t[i], rest);
      PlainRendered(t, i, k, rest);
    }
  }

  /** What follows the opener of a whole, balanced comment. */
  ghost predicate BlockBody(s: string) {
    exists b :: Proper(b) && s == Render(b)
  }

  /** Block comments are exactly the balanced nested ones. */
  lemma BlockCommentExactly(t: string, i: nat, end: nat)
    requires Pair(t, i, '/', '*') && i + 2 <= end <= |t|
    ensures Close(t, i + 2, 1) == Some(end) <==> BlockBody(t[i + 2..end])
  {
    if Close(t, i + 2, 1) == Some(end) {
      var b, k := ClosedIsRendered(t, i + 2, 1, end);
      assert k == end;
    }
    if b :| Proper(b) && t[i + 2..end] == Render(b) {
      RenderedCloses(t, i + 2, b);
    }
  }

  // ---------------------------------------------------------------- literals

  /** End of a string body that starts at `i`, after its closing quote. */
  function StringEnd(t: string, i: nat): (end: Option<nat>)
    ensures end.Some? ==> i < end.value <= |t|
    decreases |t| - i
  {
    if i >= |t| then None
    else if t[i] == '\\' then StringEnd(t, i + 2)
    else if t[i] == '"' then Some(i + 1)
    else StringEnd(t, i + 1)
  }

  /** Escape pairs and ordinary characters, then the first unescaped quote. */
  predicate StringBody(s: string) {
    |s| >= 1 &&
    if s[0] == '\\' then |s| >= 2 && StringBody(s[2..])
    else if s[0] == '"' then |s| == 1
    else StringBody(s[1..])
  }

  lemma {:induction false} StringEndExactly(t: string, i: nat, end: nat)
    requires i <= end <= |t|
    ensures StringEnd(t, i) == Some(end) <==> StringBody(t[i..end])
    decreases end - i
  {
    if i < end {
      assert t[i..end][0] == t[i];
      if t[i] == '\\' {
        if i + 2 <= end {
          assert t[i..end][2..] == t[i + 2..end];
          StringEndExactly(t, i + 2, end);
        }
      } else if t[i] != '"' {
        assert t[i..end][1..] == t[i + 1..end];
        StringEndExactly(t, i + 1, end);
      }
    }
  }

  /** How many `#` stand at `i`. */
  function Hashes(t: string, i: nat): (n: nat)
    ensures i <= |t| ==> i + n <= |t|
    ensures i <= |t| ==> t[i..i + n] == Hash(n)
    decreases |t| - i
  {
    if i < |t| && t[i] == '#' then
      assert t[i..i + 1 + Hashes(t, i + 1)] == ['#'] + t[i + 1..i + 1 + Hashes(t, i + 1)];
      1 + Hashes(t, i + 1)
    else 0
  }

  function Hash(n: nat): (s: string)
    ensures |s| == n
  {
    if n == 0 then "" else ['#'] + Hash(n - 1)
  }

  /** The opening of a raw string at `i`: the number of hashes and the position after its quote. */
  function RawOpen(t: string, i: nat): (o: Option<(nat, nat)>)
    requires i < |t|
    ensures o.Some? ==> i < o.value.1 <= |t|
  {
    var r := if t[i] in {'b', 'c'} then i + 1 else i;
    if r < |t| && t[r] == 'r' then
      var h := Hashes(t, r + 1);
      if r + 1 + h < |t| && t[r + 1 + h] == '"' then Some((h, r + 2 + h)) else None
    else None
  }

  datatype Kind = LineComment | BlockComment | RawString | Str | Chr | Lifetime | Code

  datatype Step = Unlexable | Region(kind: Kind, end: nat)

  /** A quote at `q`: an escaped or plain character literal, or a lifetime, for a region from `i`. */
  function QuoteStep(t: string, q: nat): (s: Step)
    requires q < |t| && t[q] == '\''
    ensures s.Region? ==> q < s.end <= |t| && s.kind in {Chr, Lifetime}
    ensures s.Region? && s.kind == Lifetime ==> s.end == q + 2 && Ident(t[q + 1])
    ensures s.Region? && s.kind == Chr ==> 3 <= s.end - q <= 13 && t[s.end - 1] == '\''
  {
    if q + 1 < |t| && t[q + 1] == '\\' then
      var from := if q + 2 < |t| && t[q + 2] == '\'' then q + 3 else q + 2;
      match Find(t, "'", from)
      case None => Unlexable
      case Some(close) =>
        assert t[close..close + 1] == "'";
        if close - q > 12 then Unlexable else Region(Chr, close + 1)
    else if q + 2 < |t| && t[q + 2] == '\'' then Region(Chr, q + 3)
    else if q + 1 < |t| && Ident(t[q + 1]) then Region(Lifetime, q + 2)
    else Unlexable
  }

  /** A raw string opened with `h` hashes ends at the first quote with as many hashes. */
  function RawRegion(t: string, h: nat, at: nat): (s: Step)
    requires at <= |t|
    ensures s.Region? ==> at < s.end <= |t|
  {
    match Find(t, "\"" + Hash(h), at)
    case None => Unlexable
    case Some(end) => Region(RawString, end + 1 + h)
  }

  /** The region that starts at `i`; the branches are tried in the source's order. */
  function Next(t: string, i: nat): (s: Step)
    requires i < |t|
    ensures s.Region? ==> i < s.end <= |t|
  {
    if Pair(t, i, '/', '/') then
      match Find(t, "\n", i)
      case None => Region(LineComment, |t|)
      case Some(j) => Region(LineComment, j)
    else if Pair(t, i, '/', '*') then
      match Close(t, i + 2, 1)
      case None => Unlexable
      case Some(end) => Region(BlockComment, end)
    else if RawOpen(t, i).Some? && !PrevIdent(t, i) then
      RawRegion(t, RawOpen(t, i).value.0, RawOpen(t, i).value.1)
    else if t[i] == '"' || (t[i] in {'b', 'c'} && i + 1 < |t| && t[i + 1] == '"' && !PrevIdent(t, i)) then
      match StringEnd(t, if t[i] == '"' then i + 1 else i + 2)
      case None => Unlexable
      case Some(end) => Region(Str, end)
    else if t[i] == '\'' then QuoteStep(t, i)
    else if t[i] == 'b' && i + 1 < |t| && t[i + 1] == '\'' && !PrevIdent(t, i) then QuoteStep(t, i + 1)
    else Region(Code, i + 1)
  }

  /** What a region leaves in the output; nothing of a comment or a literal does. */
  function Image(kind: Kind, text: string): (out: string) {
    match kind
    case LineComment => ""
    case BlockComment => " "
    case RawString => "\"\""
    case Str => "\"\""
    case Chr => "\"\""
    case Lifetime => text
    case Code => text
  }

  datatype Token = Token(kind: Kind, text: string)

  /** All regions from `i` on, or None where the lexer gives up. */
  function Lex(t: string, i: nat): (r: Option<seq<Token>>)
    requires i <= |t|
    decreases |t| - i
  {
    if i == |t| then Some([])
    else match Next(t, i)
      case Unlexable => None
      case Region(kind, end) =>
        match Lex(t, end)
        case None => None
        case Some(rest) => Some([Token(kind, t[i..end])] + rest)
  }

  function Texts(ts: seq<Token>): (s: string) {
    if ts == [] then "" else ts[0].text + Texts(ts[1..])
  }

  function Output(ts: seq<Token>): (s: string) {
    if ts == [] then "" else Image(ts[0].kind, ts[0].text) + Output(ts[1..])
  }

  // ---------------------------------------------------------------- the regions are a grammar

  /** A raw string with prefix `p` and `h` hashes: its closing mark is the first after the opening. */
  ghost predicate RawParts(text: string, p: string, h: nat, body: string) {
    && p in {"", "b", "c"} && text == p + "r" + Hash(h) + "\"" + (body + ("\"" + Hash(h)))
    && forall j: nat :: j < |body| ==> !StartsAt(body + ("\"" + Hash(h)), j, "\"" + Hash(h))
  }

  ghost predicate RawText(text: string) {
    exists p, h, body :: RawParts(text, p, h, body)
  }

  /** A character between quotes, or an escape up to the first quote after the escaped character, not too long. */
  predicate CharText(s: string) {
    || (|s| == 3 && s[0] == '\'' && s[1] != '\\' && s[2] == '\'')
    || (4 <= |s| <= 13 && s[0] == '\'' && s[1] == '\\' && s[|s| - 1] == '\''
        && forall k :: 3 <= k < |s| - 1 ==> s[k] != '\'')
  }

  predicate LifetimeText(s: string) {
    |s| == 2 && s[0] == '\'' && Ident(s[1])
  }

  /** What each kind of region looks like, independently of how it was found. */
  ghost predicate WellFormed(tok: Token) {
    match tok.kind
    case LineComment => Pair(tok.text, 0, '/', '/') && '\n' !in tok.text
    case BlockComment => Pair(tok.text, 0, '/', '*') && BlockBody(tok.text[2..])
    case RawString => RawText(tok.text)
    case Str => exists p :: p in {"", "b", "c"} && |tok.text| > |p| && tok.text[..|p|] == p && tok.text[|p|] == '"'
                            && StringBody(tok.text[|p| + 1..])
    case Chr => exists p :: p in {"", "b"} && |p| <= |tok.text| && tok.text[..|p|] == p && CharText(tok.text[|p|..])
    case Lifetime => exists p :: p in {"", "b"} && |p| <= |tok.text| && tok.text[..|p|] == p
                                 && LifetimeText(tok.text[|p|..])
    case Code => |tok.text| == 1 && tok.text[0] != '"' && tok.text[0] != '\''
  }

  lemma LineWellFormed(t: string, i: nat)
    requires i < |t| && Pair(t, i, '/', '/')
    ensures WellFormed(Token(LineComment, t[i..Next(t, i).end]))
    ensures Next(t, i).end < |t| ==> t[Next(t, i).end] == '\n'
  {
    var end := Next(t, i).end;
    if end < |t| {
      assert t[end..end + 1] == "\n";
    }
    forall j | i <= j < end
      ensures t[j] != '\n'
    {
      assert !StartsAt(t, j, "\n");
      assert t[j..j + 1] == [t[j]];
    }
    assert t[i..end][0] == '/' && t[i..end][1] == '/';
  }

  lemma BlockWellFormed(t: string, i: nat, end: nat)
    requires i < |t| && Pair(t, i, '/', '*') && Next(t, i) == Region(BlockComment, end)
    ensures WellFormed(Token(BlockComment, t[i..end]))
  {
    BlockCommentExactly(t, i, end);
    assert t[i..end][2..] == t[i + 2..end];
  }

  /** Inside the literal, the closing mark stands nowhere before its end. */
  lemma RawFirst(t: string, at: nat, close: nat, mark: string, j: nat)
    requires at <= close && StartsAt(t, close, mark) && j < close - at && !StartsAt(t, at + j, mark)
    ensures !StartsAt(t[at..close] + mark, j, mark)
  {
    var inner := t[at..close] + mark;
    assert t[at..close + |mark|] == inner;
    if StartsAt(inner, j, mark) {
      PartOf(t, at, inner, j, j + |mark|);
    }
  }

  /** The closing mark `mark` stands first at `close`. */
  ghost predicate FirstAt(t: string, at: nat, close: nat, mark: string) {
    at <= close && StartsAt(t, close, mark) && forall j: nat :: at <= j < close ==> !StartsAt(t, j, mark)
  }

  /** The parts of a raw string region. */
  lemma NextRaw(t: string, i: nat, end: nat) returns (p: string, h: nat, at: nat, close: nat)
    requires i < |t| && Next(t, i) == Region(RawString, end)
    ensures p in {"", "b", "c"} && i <= at <= |t| && t[i..at] == p + "r" + Hash(h) + "\""
    ensures FirstAt(t, at, close, "\"" + Hash(h)) && end == close + 1 + h
  {
    assert RawOpen(t, i).Some?;
    h, at := RawOpen(t, i).value.0, RawOpen(t, i).value.1;
    close := RawFound(t, h, at, end);
    p := RawPrefix(t, i);
  }

  lemma RawFound(t: string, h: nat, at: nat, end: nat) returns (close: nat)
    requires at <= |t| && RawRegion(t, h, at) == Region(RawString, end)
    ensures FirstAt(t, at, close, "\"" + Hash(h)) && end == close + 1 + h
  {
    close := Find(t, "\"" + Hash(h), at).value;
  }

  lemma RawWellFormed(t: string, i: nat, end: nat)
    requires i < |t| && Next(t, i) == Region(RawString, end)
    ensures WellFormed(Token(RawString, t[i..end]))
  {
    var p, h, at, close := NextRaw(t, i, end);
    RawClosed(t, i, at, p, h, close);
    RawIsWellFormed(t[i..end], p, h, t[at..close]);
  }

  lemma RawIsWellFormed(text: string, p: string, h: nat, body: string)
    requires RawParts(text, p, h, body)
    ensures WellFormed(Token(RawString, text))
  {
    assert RawText(text);
  }

  lemma FourParts(t: string, i: nat, r: nat, h: nat)
    requires i <= r && r + 2 + h <= |t|
    ensures t[i..r + 2 + h] == t[i..r] + [t[r]] + t[r + 1..r + 1 + h] + [t[r + 1 + h]]
  {
  }

  lemma RawPrefix(t: string, i: nat) returns (p: string)
    requires i < |t| && RawOpen(t, i).Some?
    ensures var (h, at) := RawOpen(t, i).value;
            p in {"", "b", "c"} && t[i..at] == p + "r" + Hash(h) + "\""
  {
    var (h, at) := RawOpen(t, i).value;
    var r := if t[i] in {'b', 'c'} then i + 1 else i;
    p := if r == i then "" else [t[i]];
    FourParts(t, i, r, h);
    assert t[r] == 'r' && t[r + 1..r + 1 + h] == Hash(h) && t[r + 1 + h] == '"' && t[i..r] == p;
  }

  lemma ThreeParts(t: string, i: nat, a: nat, b: nat, end: nat)
    requires i <= a <= b <= end <= |t|
    ensures t[i..end] == t[i..a] + (t[a..b] + t[b..end])
  {
  }

  lemma RawClosed(t: string, i: nat, at: nat, p: string, h: nat, close: nat)
    requires p in {"", "b", "c"} && i <= at <= |t| && t[i..at] == p + "r" + Hash(h) + "\""
    requires FirstAt(t, at, close, "\"" + Hash(h))
    ensures RawParts(t[i..close + 1 + h], p, h, t[at..close])
  {
    var mark := "\"" + Hash(h);
    var body, end := t[at..close], close + |mark|;
    ThreeParts(t, i, at, close, end);
    forall j: nat | j < |body|
      ensures !StartsAt(body + mark, j, mark)
    {
      RawFirst(t, at, close, mark, j);
    }
  }

  lemma StrWellFormed(t: string, i: nat, end: nat)
    requires i < |t| && Next(t, i) == Region(Str, end)
    ensures WellFormed(Token(Str, t[i..end]))
  {
    var k := if t[i] == '"' then 0 else 1;
    var p := if k == 0 then "" else [t[i]];
    assert p in {"", "b", "c"};
    StringEndExactly(t, i + k + 1, end);
    assert t[i..end][..|p|] == p && t[i..end][|p|] == '"';
    assert t[i..end][|p| + 1..] == t[i + k + 1..end];
  }

  /** The quote region is a character literal or a lifetime. */
  lemma QuoteText(t: string, q: nat)
    requires q < |t| && t[q] == '\'' && QuoteStep(t, q).Region?
    ensures var s := QuoteStep(t, q);
            if s.kind == Chr then CharText(t[q..s.end]) else LifetimeText(t[q..s.end])
  {
    var s := QuoteStep(t, q);
    var text := t[q..s.end];
    assert text[0] == t[q] && text[1] == t[q + 1] && text[|text| - 1] == t[s.end - 1];
    if s.kind == Chr && t[q + 1] == '\\' {
      forall k | 3 <= k < |text| - 1
        ensures text[k] != '\''
      {
        assert text[k] == t[q + k] && t[q + k..q + k + 1] == [t[q + k]];
        assert !StartsAt(t, q + k, "'");
      }
    }
  }

  lemma QuoteWellFormed(t: string, i: nat, q: nat)
    requires q < |t| && t[q] == '\'' && (q == i || (q == i + 1 && t[i] == 'b')) && QuoteStep(t, q).Region?
    ensures WellFormed(Token(QuoteStep(t, q).kind, t[i..QuoteStep(t, q).end]))
  {
    var p, end := if q == i then "" else "b", QuoteStep(t, q).end;
    assert p in {"", "b"};
    QuoteText(t, q);
    assert t[i..end][..|p|] == p && t[i..end][|p|..] == t[q..end];
  }

  /** Every region found is well formed. */
  lemma NextWellFormed(t: string, i: nat)
    requires i < |t| && Next(t, i).Region?
    ensures WellFormed(Token(Next(t, i).kind, t[i..Next(t, i).end]))
  {
    var end := Next(t, i).end;
    match Next(t, i).kind
    case LineComment => LineWellFormed(t, i);
    case BlockComment => BlockWellFormed(t, i, end);
    case RawString => RawWellFormed(t, i, end);
    case Str => StrWellFormed(t, i, end);
    case Chr => QuoteWellFormed(t, i, if t[i] == '\'' then i else i + 1);
    case Lifetime => QuoteWellFormed(t, i, if t[i] == '\'' then i else i + 1);
    case Code =>
  }

  /** The regions are consecutive and cover the text exactly. */
  lemma {:induction false} RegionsCoverText(t: string, i: nat, ts: seq<Token>)
    requires i <= |t| && Lex(t, i) == Some(ts)
    ensures Texts(ts) == t[i..]
    decreases |t| - i
  {
    if i < |t| {
      var end := Next(t, i).end;
      var rest := Lex(t, end).value;
      RegionsCoverText(t, end, rest);
      assert ts[1..] == rest && ts[0].text == t[i..end];
      assert t[i..] == t[i..end] + t[end..];
    }
  }

  /** Every region of an accepted text is well formed. */
  lemma {:induction false} RegionsWellFormed(t: string, i: nat, ts: seq<Token>, k: nat)
    requires i <= |t| && Lex(t, i) == Some(ts) && k < |ts|
    ensures WellFormed(ts[k])
    decreases |t| - i
  {
    var end := Next(t, i).end;
    if k == 0 {
      NextWellFormed(t, i);
    } else {
      RegionsWellFormed(t, end, Lex(t, end).value, k - 1);
    }
  }

  // ---------------------------------------------------------------- when a text is refused

  ghost predicate UnclosedBlock(t: string, i: nat) {
    Pair(t, i, '/', '*') && NoBody(t, i + 2)
  }

  ghost predicate NoBody(t: string, from: nat) {
    forall end :: from <= end <= |t| ==> !BlockBody(t[from..end])
  }

  ghost predicate UnclosedRaw(t: string, i: nat)
    requires i < |t|
  {
    && RawOpen(t, i).Some? && !PrevIdent(t, i)
    && var (h, at) := RawOpen(t, i).value;
       forall k: nat :: at <= k ==> !StartsAt(t, k, "\"" + Hash(h))
  }

  /** Where the body of a string that opens at `i` begins. */
  function StringOpen(t: string, i: nat): (k: Option<nat>)
    requires i < |t|
  {
    if t[i] == '"' then Some(i + 1)
    else if t[i] in {'b', 'c'} && i + 1 < |t| && t[i + 1] == '"' && !PrevIdent(t, i) then Some(i + 2)
    else None
  }

  ghost predicate UnclosedString(t: string, i: nat)
    requires i < |t|
  {
    StringOpen(t, i).Some? && forall end :: StringOpen(t, i).value <= end <= |t| ==>
        !StringBody(t[StringOpen(t, i).value..end])
  }

  /** The quote of a character literal, a byte literal or a lifetime that opens at `i`. */
  function QuoteOpen(t: string, i: nat): (q: Option<nat>)
    requires i < |t|
  {
    if t[i] == '\'' then Some(i)
    else if t[i] == 'b' && i + 1 < |t| && t[i + 1] == '\'' && !PrevIdent(t, i) then Some(i + 1)
    else None
  }

  ghost predicate StrayQuote(t: string, i: nat)
    requires i < |t|
  {
    QuoteOpen(t, i).Some? &&
    forall end :: QuoteOpen(t, i).value <= end <= |t| ==>
      !CharText(t[QuoteOpen(t, i).value..end]) && !LifetimeText(t[QuoteOpen(t, i).value..end])
  }

  /** An opener stands at `i` that no prefix of the rest can close. */
  ghost predicate Unclosable(t: string, i: nat) {
    && i < |t| && !Pair(t, i, '/', '/')
    && if Pair(t, i, '/', '*') then UnclosedBlock(t, i)
       else if RawOpen(t, i).Some? && !PrevIdent(t, i) then UnclosedRaw(t, i)
       else if StringOpen(t, i).Some? then UnclosedString(t, i)
       else StrayQuote(t, i)
  }

  lemma BlockRefusedExactly(t: string, i: nat)
    requires Pair(t, i, '/', '*')
    ensures Close(t, i + 2, 1).None? <==> UnclosedBlock(t, i)
  {
    if Close(t, i + 2, 1).Some? {
      BlockCommentExactly(t, i, Close(t, i + 2, 1).value);
    } else {
      var from := i + 2;
      forall end | from <= end <= |t|
        ensures !BlockBody(t[from..end])
      {
        BlockCommentExactly(t, i, end);
      }
    }
  }

  lemma StringRefusedExactly(t: string, k: nat)
    requires k <= |t|
    ensures StringEnd(t, k).None? <==> forall end :: k <= end <= |t| ==> !StringBody(t[k..end])
  {
    if StringEnd(t, k).Some? {
      StringEndExactly(t, k, StringEnd(t, k).value);
    } else {
      forall end | k <= end <= |t|
        ensures !StringBody(t[k..end])
      {
        StringEndExactly(t, k, end);
      }
    }
  }

  lemma QuoteRefused(t: string, q: nat, end: nat)
    requires q < |t| && t[q] == '\'' && q <= end <= |t| && (CharText(t[q..end]) || LifetimeText(t[q..end]))
    ensures QuoteStep(t, q).Region?
  {
    var s := t[q..end];
    assert s[1] == t[q + 1];
    if CharText(s) && |s| > 3 {
      assert s[|s| - 1] == t[end - 1] && t[end - 1..end] == "'";
      assert StartsAt(t, end - 1, "'");
    } else if CharText(s) {
      assert s[2] == t[q + 2];
    }
  }

  lemma QuoteRefusedExactly(t: string, q: nat)
    requires q < |t| && t[q] == '\''
    ensures QuoteStep(t, q).Unlexable? <==>
              forall end :: q <= end <= |t| ==> !CharText(t[q..end]) && !LifetimeText(t[q..end])
  {
    if QuoteStep(t, q).Region? {
      QuoteText(t, q);
    }
    if end :| q <= end <= |t| && (CharText(t[q..end]) || LifetimeText(t[q..end])) {
      QuoteRefused(t, q, end);
    }
  }

  /** The lexer gives up exactly at an opener that cannot be closed. */
  lemma UnlexableExactly(t: string, i: nat)
    requires i < |t|
    ensures Next(t, i).Unlexable? <==> Unclosable(t, i)
  {
    if !Pair(t, i, '/', '/') {
      if Pair(t, i, '/', '*') {
        BlockRefusedExactly(t, i);
      } else if RawOpen(t, i).Some? && !PrevIdent(t, i) {
      } else if StringOpen(t, i).Some? {
        StringRefusedExactly(t, StringOpen(t, i).value);
      } else if QuoteOpen(t, i).Some? {
        QuoteRefusedExactly(t, QuoteOpen(t, i).value);
      }
    }
  }

  /** Regions lead from `i` to `k`. */
  ghost predicate Arrives(t: string, i: nat, k: nat)
    decreases |t| - i
  {
    i == k || (i < |t| && Next(t, i).Region? && Arrives(t, Next(t, i).end, k))
  }

  /** A text is refused exactly when the regions lead to an opener that cannot be closed. */
  lemma {:induction false} RefusedExactly(t: string, i: nat)
    requires i <= |t|
    ensures Lex(t, i).None? <==> exists k: nat :: Arrives(t, i, k) && Unclosable(t, k)
    decreases |t| - i
  {
    if i < |t| {
      UnlexableExactly(t, i);
      if Next(t, i).Region? {
        RefusedExactly(t, Next(t, i).end);
        if k: nat :| Arrives(t, Next(t, i).end, k) && Unclosable(t, k) {
          assert Arrives(t, i, k);
        }
      } else {
        assert Arrives(t, i, i);
      }
    }
  }

  /** Consecutive well-formed regions that make up the text. */
  ghost predicate CutInto(ts: seq<Token>, t: string) {
    Texts(ts) == t && forall j :: 0 <= j < |ts| ==> WellFormed(ts[j])
  }

  /** What leads up to a position is consecutive and well formed. */
  lemma {:induction false} ArrivesByRegions(t: string, i: nat, k: nat) returns (ts: seq<Token>)
    requires i <= |t| && Arrives(t, i, k) && k <= |t|
    ensures i <= k && CutInto(ts, t[i..k])
    decreases |t| - i
  {
    if i == k {
      ts := [];
    } else {
      NextWellFormed(t, i);
      var end := Next(t, i).end;
      var rest := ArrivesByRegions(t, end, k);
      ts := [Token(Next(t, i).kind, t[i..end])] + rest;
      assert ts[1..] == rest && t[i..k] == t[i..end] + t[end..k];
    }
  }

  /** The regions lead from the start to an opener that cannot be closed. */
  ghost predicate Refused(t: string) {
    exists k: nat :: Arrives(t, 0, k) && Unclosable(t, k)
  }

  // ---------------------------------------------------------------- no comment opener survives

  ghost predicate NoOpeners(s: string) {
    forall i :: 0 <= i ==> !Pair(s, i, '/', '/') && !Pair(s, i, '/', '*')
  }

  /** An output that begins with `/` or `*` begins with the very next character of the text. */
  lemma FirstOutput(t: string, i: nat, ts: seq<Token>)
    requires i <= |t| && Lex(t, i) == Some(ts) && Output(ts) != "" && Output(ts)[0] in {'/', '*'}
    ensures i < |t| && t[i] == Output(ts)[0] && Next(t, i).kind == Code
  {
    var end := Next(t, i).end;
    var rest := Lex(t, end).value;
    assert ts == [Token(Next(t, i).kind, t[i..end])] + rest;
    assert Output(ts) == Image(Next(t, i).kind, t[i..end]) + Output(rest);
    match Next(t, i).kind
    case LineComment =>
      LineWellFormed(t, i);
      assert Output(ts) == Output(rest);
      if end < |t| {
        NewlineFirst(t, end, rest);
      }
    case _ =>
  }

  lemma NewlineFirst(t: string, i: nat, ts: seq<Token>)
    requires i < |t| && t[i] == '\n' && Lex(t, i) == Some(ts)
    ensures Output(ts) != "" && Output(ts)[0] == '\n'
  {
    assert Next(t, i) == Region(Code, i + 1);
    assert ts[0] == Token(Code, t[i..i + 1]);
  }

  lemma NoOpenersAcross(a: string, b: string)
    requires NoOpeners(a) && NoOpeners(b)
    requires a != "" && a[|a| - 1] == '/' && b != "" ==> b[0] !in {'/', '*'}
    ensures NoOpeners(a + b)
  {
    forall i | 0 <= i
      ensures !Pair(a + b, i, '/', '/') && !Pair(a + b, i, '/', '*')
    {
      if i + 1 < |a| {
        assert !Pair(a, i, '/', '/') && !Pair(a, i, '/', '*');
      } else if i >= |a| {
        assert !Pair(b, i - |a|, '/', '/') && !Pair(b, i - |a|, '/', '*');
      }
    }
  }

  lemma SlashFree(s: string)
    requires forall i :: 0 <= i < |s| ==> s[i] != '/'
    ensures NoOpeners(s) && (s != "" ==> s[|s| - 1] != '/')
  {
  }

  lemma LifetimeSlashFree(text: string, p: string)
    requires p in {"", "b"} && |text| == |p| + 2 && text[..|p|] == p && text[|p|] == '\'' && Ident(text[|p| + 1])
    ensures forall i :: 0 <= i < |text| ==> text[i] != '/'
  {
    assert p != "" ==> text[..|p|][0] == text[0] == 'b';
  }

  /** An image holds no opener, and only the code character `/` ends with a slash. */
  lemma ImageClean(tok: Token)
    requires WellFormed(tok)
    ensures var image := Image(tok.kind, tok.text);
            NoOpeners(image) && (image != "" && image[|image| - 1] == '/' ==> tok.kind == Code && tok.text == "/")
  {
    if tok.kind == Lifetime {
      var p := LifetimePrefix(tok);
      LifetimeSlashFree(tok.text, p);
      SlashFree(tok.text);
    } else if tok.kind == Code {
      CodeClean(tok.text);
    } else {
      SlashFree(Image(tok.kind, tok.text));
    }
  }

  lemma CodeClean(text: string)
    requires |text| == 1
    ensures NoOpeners(text) && (text[|text| - 1] == '/' ==> text == "/")
  {
  }

  /** One more region in front leaves no opener if none was left. */
  lemma FrontHasNoComment(t: string, i: nat, rest: seq<Token>)
    requires i < |t| && Next(t, i).Region? && Lex(t, Next(t, i).end) == Some(rest) && NoOpeners(Output(rest))
    ensures NoOpeners(Image(Next(t, i).kind, t[i..Next(t, i).end]) + Output(rest))
  {
    var kind, end := Next(t, i).kind, Next(t, i).end;
    NextWellFormed(t, i);
    ImageClean(Token(kind, t[i..end]));
    if kind == Code && t[i] == '/' && Output(rest) != "" && Output(rest)[0] in {'/', '*'} {
      FirstOutput(t, end, rest);
    }
    NoOpenersAcross(Image(kind, t[i..end]), Output(rest));
  }

  // The output contains neither a line comment opener nor a block comment opener.
  lemma {:induction false} OutputHasNoComment(t: string, i: nat, ts: seq<Token>)
    requires i <= |t| && Lex(t, i) == Some(ts)
    ensures NoOpeners(Output(ts))
    decreases |t| - i
  {
    if i < |t| {
      var end := Next(t, i).end;
      var rest := Lex(t, end).value;
      OutputHasNoComment(t, end, rest);
      FrontHasNoComment(t, i, rest);
      assert ts[0] == Token(Next(t, i).kind, t[i..end]) && ts[1..] == rest;
    }
  }

  // ---------------------------------------------------------------- the one cut into tokens

  /** A raw string opens at `i` with this prefix and so many hashes. */
  predicate RawAt(t: string, i: nat, p: string, h: nat) {
    p in {"", "b", "c"} && StartsAt(t, i, p + "r" + Hash(h) + "\"")
  }

  /** The character before `i` belongs to a name, so no prefix letter can start there. */
  predicate Glued(t: string, i: nat) {
    i > 0 && i <= |t| && Ident(t[i - 1])
  }

  ghost predicate RawOpens(t: string, i: nat) {
    !Glued(t, i) && exists p, h :: RawAt(t, i, p, h)
  }

  predicate StrOpens(t: string, i: nat) {
    StartsAt(t, i, "\"") || (!Glued(t, i) && (StartsAt(t, i, "b\"") || StartsAt(t, i, "c\"")))
  }

  predicate QuoteOpens(t: string, i: nat) {
    StartsAt(t, i, "'") || (!Glued(t, i) && StartsAt(t, i, "b'"))
  }

  /** The kind is the one that opens at `i`: at most one does, and code is what nothing opens. */
  ghost predicate KindOpens(t: string, i: nat, kind: Kind) {
    && (kind == LineComment <==> StartsAt(t, i, "//"))
    && (kind == BlockComment <==> StartsAt(t, i, "/*"))
    && (kind == RawString <==> RawOpens(t, i))
    && (kind == Str <==> StrOpens(t, i))
    && (kind == Chr || kind == Lifetime <==> QuoteOpens(t, i))
  }

  /** A line comment runs to the end of its line, and a lifetime is not the beginning of a character literal. */
  predicate Stops(t: string, end: nat, kind: Kind) {
    end < |t| ==> (kind == LineComment ==> t[end] == '\n') && (kind == Lifetime ==> t[end] != '\'')
  }

  /** This token stands at `i`: its text is there and well formed, of the kind that opens there, and stops rightly. */
  ghost predicate TokenAt(t: string, i: nat, tok: Token) {
    && i < |t| && tok.text != "" && StartsAt(t, i, tok.text) && WellFormed(tok)
    && KindOpens(t, i, tok.kind) && Stops(t, i + |tok.text|, tok.kind)
  }

  lemma StartsOne(t: string, i: nat, c: char)
    ensures StartsAt(t, i, [c]) <==> i < |t| && t[i] == c
  {
    if i < |t| {
      assert t[i..i + 1] == [t[i]];
    }
  }

  lemma StartsTwo(t: string, i: nat, a: char, b: char)
    ensures StartsAt(t, i, [a, b]) <==> Pair(t, i, a, b)
  {
    if i + 1 < |t| {
      assert t[i..i + 2] == [t[i], t[i + 1]];
    }
  }

  /** Inside a piece of the text, starts are starts in the text. */
  lemma StartsInside(t: string, i: nat, inner: string, x: nat, p: string)
    requires StartsAt(t, i, inner) && x + |p| <= |inner|
    ensures StartsAt(t, i + x, p) <==> StartsAt(inner, x, p)
  {
    PartOf(t, i, inner, x, x + |p|);
  }

  lemma {:induction false} HashesExactly(t: string, i: nat, h: nat)
    requires i + h < |t| && t[i..i + h] == Hash(h) && t[i + h] != '#'
    ensures Hashes(t, i) == h
    decreases h
  {
    if h > 0 {
      assert t[i..i + h][0] == '#';
      assert t[i + 1..i + h] == t[i..i + h][1..] == Hash(h - 1);
      HashesExactly(t, i + 1, h - 1);
    }
  }

  lemma RawAtPrefix(t: string, i: nat, p: string, h: nat)
    requires RawAt(t, i, p, h)
    ensures i + |p| + 1 + h < |t| && t[i + |p|] == 'r' && (if t[i] in {'b', 'c'} then i + 1 else i) == i + |p|
    ensures t[i + |p| + 1 + h] == '"'
  {
    var open := p + "r" + Hash(h) + "\"";
    assert |open| == |p| + 2 + h && open[|p|] == 'r' && open[|p| + 1 + h] == '"';
    assert p != "" ==> open[0] == p[0];
    var part := t[i..i + |open|];
    assert part[0] == t[i] && part[|p|] == t[i + |p|] && part[|p| + 1 + h] == t[i + |p| + 1 + h];
  }

  lemma RawAtHashes(t: string, i: nat, p: string, h: nat)
    requires RawAt(t, i, p, h)
    ensures i + |p| + 1 + h < |t| && t[i + |p| + 1..i + |p| + 1 + h] == Hash(h)
  {
    var open := p + "r" + Hash(h) + "\"";
    assert open[|p| + 1..|p| + 1 + h] == Hash(h);
    PartOf(t, i, open, |p| + 1, |p| + 1 + h);
  }

  lemma RawOpenIs(t: string, i: nat, r: nat, h: nat)
    requires i < |t| && r == (if t[i] in {'b', 'c'} then i + 1 else i) && r < |t| && t[r] == 'r'
    requires Hashes(t, r + 1) == h && r + 1 + h < |t| && t[r + 1 + h] == '"'
    ensures RawOpen(t, i) == Some((h, r + 2 + h))
  {
  }

  lemma RawParse(t: string, i: nat, p: string, h: nat)
    requires RawAt(t, i, p, h)
    ensures i < |t| && RawOpen(t, i) == Some((h, i + |p| + 2 + h))
  {
    RawAtPrefix(t, i, p, h);
    RawAtHashes(t, i, p, h);
    HashesExactly(t, i + |p| + 1, h);
    RawOpenIs(t, i, i + |p|, h);
  }

  lemma RawOpensExactly(t: string, i: nat)
    requires i < |t|
    ensures RawOpens(t, i) <==> RawOpen(t, i).Some? && !PrevIdent(t, i)
  {
    if RawOpen(t, i).Some? {
      var p := RawPrefix(t, i);
      assert RawAt(t, i, p, RawOpen(t, i).value.0);
    }
    if p, h :| RawAt(t, i, p, h) {
      RawParse(t, i, p, h);
    }
  }

  /** Which kind opens at a position, read off the text, is what the branches of the lexer test. */
  lemma OpensExactly(t: string, i: nat)
    requires i < |t|
    ensures StartsAt(t, i, "//") <==> Pair(t, i, '/', '/')
    ensures StartsAt(t, i, "/*") <==> Pair(t, i, '/', '*')
    ensures RawOpens(t, i) <==> RawOpen(t, i).Some? && !PrevIdent(t, i)
    ensures StrOpens(t, i) <==> StringOpen(t, i).Some?
    ensures QuoteOpens(t, i) <==> QuoteOpen(t, i).Some?
  {
    StartsTwo(t, i, '/', '/');
    StartsTwo(t, i, '/', '*');
    RawOpensExactly(t, i);
    StartsOne(t, i, '"');
    StartsTwo(t, i, 'b', '"');
    StartsTwo(t, i, 'c', '"');
    StartsOne(t, i, '\'');
    StartsTwo(t, i, 'b', '\'');
  }

  /** At most one kind opens at a position. */
  lemma KindOf(t: string, i: nat)
    requires i < |t| && Next(t, i).Region?
    ensures var kind := Next(t, i).kind;
            && (kind == LineComment <==> Pair(t, i, '/', '/'))
            && (kind == BlockComment <==> Pair(t, i, '/', '*'))
            && (kind == RawString <==> RawOpen(t, i).Some? && !PrevIdent(t, i))
            && (kind == Str <==> StringOpen(t, i).Some?)
            && (kind == Chr || kind == Lifetime <==> QuoteOpen(t, i).Some?)
  {
  }

  lemma NextOpens(t: string, i: nat)
    requires i < |t| && Next(t, i).Region?
    ensures KindOpens(t, i, Next(t, i).kind)
  {
    KindOf(t, i);
    OpensExactly(t, i);
  }

  lemma NextStops(t: string, i: nat)
    requires i < |t| && Next(t, i).Region?
    ensures Stops(t, Next(t, i).end, Next(t, i).kind)
  {
    if Next(t, i).kind == LineComment {
      KindOf(t, i);
      LineWellFormed(t, i);
    }
  }

  /** The region found at a position, as a token. */
  function NextToken(t: string, i: nat): (tok: Token)
    requires i < |t| && Next(t, i).Region?
  {
    Token(Next(t, i).kind, t[i..Next(t, i).end])
  }

  lemma SelfStarts(t: string, i: nat, end: nat)
    requires i < end <= |t|
    ensures t[i..end] != "" && i + |t[i..end]| == end && StartsAt(t, i, t[i..end])
  {
  }

  lemma StandsThere(t: string, i: nat, tok: Token)
    requires i < |t| && tok.text != "" && StartsAt(t, i, tok.text) && WellFormed(tok)
    requires KindOpens(t, i, tok.kind) && Stops(t, i + |tok.text|, tok.kind)
    ensures TokenAt(t, i, tok)
  {
  }

  /** What the lexer finds at a position stands there. */
  lemma NextIsToken(t: string, i: nat)
    requires i < |t| && Next(t, i).Region?
    ensures TokenAt(t, i, NextToken(t, i))
  {
    NextWellFormed(t, i);
    NextOpens(t, i);
    NextStops(t, i);
    SelfStarts(t, i, Next(t, i).end);
    StandsThere(t, i, NextToken(t, i));
  }

  lemma LineTokenIsNext(t: string, i: nat, tok: Token)
    requires TokenAt(t, i, tok) && tok.kind == LineComment && Pair(t, i, '/', '/')
    ensures Next(t, i) == Region(LineComment, i + |tok.text|)
  {
    var end := i + |tok.text|;
    forall j: nat | i <= j < end
      ensures !StartsAt(t, j, "\n")
    {
      assert tok.text[j - i] == t[j];
      StartsOne(t, j, '\n');
    }
    StartsOne(t, end, '\n');
  }

  lemma BlockTokenIsNext(t: string, i: nat, tok: Token)
    requires TokenAt(t, i, tok) && tok.kind == BlockComment && Pair(t, i, '/', '*')
    ensures Next(t, i) == Region(BlockComment, i + |tok.text|)
  {
    var end := i + |tok.text|;
    assert t[i + 2..end] == tok.text[2..];
    BlockCommentExactly(t, i, end);
  }

  /** A literal closed for the first time inside the text closes there. */
  lemma RawCloses(t: string, at: nat, body: string, mark: string)
    requires mark != [] && StartsAt(t, at, body + mark)
    requires forall j: nat :: j < |body| ==> !StartsAt(body + mark, j, mark)
    ensures Find(t, mark, at) == Some(at + |body|)
  {
    var inner := body + mark;
    assert StartsAt(inner, |body|, mark);
    StartsInside(t, at, inner, |body|, mark);
    forall j: nat | at <= j < at + |body|
      ensures !StartsAt(t, j, mark)
    {
      StartsInside(t, at, inner, j - at, mark);
    }
  }

  /** The opening and the rest of a raw string, where its text stands. */
  lemma RawStands(t: string, i: nat, text: string, p: string, h: nat, body: string)
    requires StartsAt(t, i, text) && RawParts(text, p, h, body)
    ensures RawAt(t, i, p, h) && StartsAt(t, i + |p| + 2 + h, body + ("\"" + Hash(h)))
    ensures |text| == |p| + 3 + h + |body| + h
  {
    var open, rest := p + "r" + Hash(h) + "\"", body + ("\"" + Hash(h));
    TwoParts(t, i, open, rest);
  }

  lemma TwoParts(t: string, i: nat, a: string, b: string)
    requires StartsAt(t, i, a + b)
    ensures StartsAt(t, i, a) && StartsAt(t, i + |a|, b)
  {
    assert (a + b)[0..|a|] == a && (a + b)[|a|..|a + b|] == b;
    PartOf(t, i, a + b, 0, |a|);
    PartOf(t, i, a + b, |a|, |a + b|);
  }

  lemma RawTokenIsNext(t: string, i: nat, text: string)
    requires StartsAt(t, i, text) && RawText(text) && i < |t| && RawOpen(t, i).Some?
    ensures RawRegion(t, RawOpen(t, i).value.0, RawOpen(t, i).value.1) == Region(RawString, i + |text|)
  {
    var p, h, body :| RawParts(text, p, h, body);
    RawStands(t, i, text, p, h, body);
    RawParse(t, i, p, h);
    RawCloses(t, i + |p| + 2 + h, body, "\"" + Hash(h));
  }

  /** The quote of a prefixed literal stands after its prefix. */
  lemma AfterPrefix(t: string, i: nat, text: string, p: string, quote: char)
    requires StartsAt(t, i, text) && |p| <= 1 && |text| > |p| && text[..|p|] == p && text[|p|] == quote
    ensures i + |p| < |t| && t[i + |p|] == quote && (p != "" ==> t[i] == p[0])
    ensures StartsAt(t, i + |p|, text[|p|..]) && StartsAt(t, i + |p| + 1, text[|p| + 1..])
  {
    var part := t[i..i + |text|];
    assert part[|p|] == t[i + |p|] && part[0] == t[i];
    assert p != "" ==> text[..|p|][0] == text[0];
    PartOf(t, i, text, |p|, |text|);
    PartOf(t, i, text, |p| + 1, |text|);
    assert text[|p|..|text|] == text[|p|..] && text[|p| + 1..|text|] == text[|p| + 1..];
  }

  lemma StringOpenIs(t: string, i: nat, p: string)
    requires p in {"", "b", "c"} && i + |p| < |t| && t[i + |p|] == '"' && (p != "" ==> t[i] == p[0])
    requires StringOpen(t, i).Some?
    ensures StringOpen(t, i) == Some(i + |p| + 1)
  {
  }

  lemma BodyCloses(t: string, k: nat, body: string)
    requires StartsAt(t, k, body) && StringBody(body)
    ensures StringEnd(t, k) == Some(k + |body|)
  {
    StringEndExactly(t, k, k + |body|);
  }

  lemma BodyStarts(t: string, i: nat, text: string, p: string, body: string)
    requires p in {"", "b", "c"} && StartsAt(t, i, text) && |text| > |p| && text[..|p|] == p && text[|p|] == '"'
    requires body == text[|p| + 1..] && i < |t| && StringOpen(t, i).Some?
    ensures StringOpen(t, i) == Some(i + |p| + 1) && StartsAt(t, i + |p| + 1, body)
    ensures i + |text| == i + |p| + 1 + |body|
  {
    AfterPrefix(t, i, text, p, '"');
    StringOpenIs(t, i, p);
  }

  lemma StrTokenIsNext(t: string, i: nat, text: string, p: string, body: string)
    requires p in {"", "b", "c"} && StartsAt(t, i, text) && |text| > |p| && text[..|p|] == p && text[|p|] == '"'
    requires body == text[|p| + 1..] && StringBody(body) && i < |t| && StringOpen(t, i).Some?
    ensures StringEnd(t, StringOpen(t, i).value) == Some(i + |text|)
  {
    BodyStarts(t, i, text, p, body);
    BodyCloses(t, StringOpen(t, i).value, body);
  }

  lemma NextStr(t: string, i: nat)
    requires i < |t| && KindOpens(t, i, Str)
    ensures StringOpen(t, i).Some?
    ensures Next(t, i) == match StringEnd(t, StringOpen(t, i).value)
                          case None => Unlexable
                          case Some(end) => Region(Str, end)
  {
    OpensExactly(t, i);
  }

  lemma StrPrefix(tok: Token) returns (p: string, body: string)
    requires WellFormed(tok) && tok.kind == Str
    ensures p in {"", "b", "c"} && |tok.text| > |p| && tok.text[..|p|] == p && tok.text[|p|] == '"'
    ensures body == tok.text[|p| + 1..] && StringBody(body)
  {
    p :| p in {"", "b", "c"} && |tok.text| > |p| && tok.text[..|p|] == p && tok.text[|p|] == '"'
         && StringBody(tok.text[|p| + 1..]);
    body := tok.text[|p| + 1..];
  }

  /** A character literal at a quote is what the quote branch finds. */
  lemma CharIsNext(t: string, q: nat, s: string)
    requires StartsAt(t, q, s) && CharText(s)
    ensures q < |t| && t[q] == '\'' && QuoteStep(t, q) == Region(Chr, q + |s|)
  {
    assert s[0] == t[q] && s[1] == t[q + 1] && s[2] == t[q + 2] && s[|s| - 1] == t[q + |s| - 1];
    if s[1] == '\\' {
      var from := if t[q + 2] == '\'' then q + 3 else q + 2;
      forall j: nat | from <= j < q + |s| - 1
        ensures !StartsAt(t, j, "'")
      {
        StartsOne(t, j, '\'');
        assert t[j] == s[j - q];
      }
      StartsOne(t, q + |s| - 1, '\'');
    }
  }

  lemma LifetimeIsNext(t: string, q: nat, s: string)
    requires StartsAt(t, q, s) && LifetimeText(s) && (q + |s| < |t| ==> t[q + |s|] != '\'')
    ensures q < |t| && t[q] == '\'' && QuoteStep(t, q) == Region(Lifetime, q + |s|)
  {
    assert s[0] == t[q] && s[1] == t[q + 1];
  }

  /** The quote of a token stands after its prefix. */
  lemma QuoteStands(t: string, i: nat, text: string, p: string)
    requires p in {"", "b"} && StartsAt(t, i, text) && |text| > |p| && text[..|p|] == p && text[|p|] == '\''
    requires i < |t| && QuoteOpen(t, i).Some?
    ensures QuoteOpen(t, i) == Some(i + |p|) && StartsAt(t, i + |p|, text[|p|..])
  {
    AfterPrefix(t, i, text, p, '\'');
  }

  lemma CharTokenIsNext(t: string, i: nat, text: string, p: string)
    requires p in {"", "b"} && |p| <= |text| && text[..|p|] == p && CharText(text[|p|..])
    requires StartsAt(t, i, text) && i < |t| && QuoteOpen(t, i).Some?
    ensures QuoteStep(t, QuoteOpen(t, i).value) == Region(Chr, i + |text|)
  {
    assert text[|p|] == text[|p|..][0];
    QuoteStands(t, i, text, p);
    CharIsNext(t, i + |p|, text[|p|..]);
  }

  lemma LifetimeTokenIsNext(t: string, i: nat, text: string, p: string)
    requires p in {"", "b"} && |p| <= |text| && text[..|p|] == p && LifetimeText(text[|p|..])
    requires StartsAt(t, i, text) && i < |t| && QuoteOpen(t, i).Some? && Stops(t, i + |text|, Lifetime)
    ensures QuoteStep(t, QuoteOpen(t, i).value) == Region(Lifetime, i + |text|)
  {
    assert text[|p|] == text[|p|..][0];
    QuoteStands(t, i, text, p);
    LifetimeIsNext(t, i + |p|, text[|p|..]);
  }

  lemma RawIsNext(t: string, i: nat, tok: Token)
    requires TokenAt(t, i, tok) && tok.kind == RawString
    ensures Next(t, i) == Region(RawString, i + |tok.text|)
  {
    OpensExactly(t, i);
    RawTokenIsNext(t, i, tok.text);
  }

  lemma StrIsNext(t: string, i: nat, tok: Token)
    requires i < |t| && StartsAt(t, i, tok.text) && WellFormed(tok) && KindOpens(t, i, Str) && tok.kind == Str
    ensures Next(t, i) == Region(Str, i + |tok.text|)
  {
    NextStr(t, i);
    var p, body := StrPrefix(tok);
    StrTokenIsNext(t, i, tok.text, p, body);
  }

  lemma NextQuote(t: string, i: nat, kind: Kind)
    requires i < |t| && kind in {Chr, Lifetime} && KindOpens(t, i, kind)
    ensures QuoteOpen(t, i).Some? && Next(t, i) == QuoteStep(t, QuoteOpen(t, i).value)
  {
    OpensExactly(t, i);
  }

  lemma CharNext(t: string, i: nat, tok: Token)
    requires i < |t| && StartsAt(t, i, tok.text) && WellFormed(tok) && KindOpens(t, i, Chr) && tok.kind == Chr
    ensures Next(t, i) == Region(Chr, i + |tok.text|)
  {
    NextQuote(t, i, Chr);
    var p := CharPrefix(tok);
    CharTokenIsNext(t, i, tok.text, p);
  }

  lemma CharPrefix(tok: Token) returns (p: string)
    requires WellFormed(tok) && tok.kind == Chr
    ensures p in {"", "b"} && |p| <= |tok.text| && tok.text[..|p|] == p && CharText(tok.text[|p|..])
  {
    p :| p in {"", "b"} && |p| <= |tok.text| && tok.text[..|p|] == p && CharText(tok.text[|p|..]);
  }

  lemma LifetimeNext(t: string, i: nat, tok: Token)
    requires i < |t| && StartsAt(t, i, tok.text) && WellFormed(tok) && KindOpens(t, i, Lifetime)
    requires tok.kind == Lifetime && Stops(t, i + |tok.text|, Lifetime)
    ensures Next(t, i) == Region(Lifetime, i + |tok.text|)
  {
    NextQuote(t, i, Lifetime);
    var p := LifetimePrefix(tok);
    LifetimeTokenIsNext(t, i, tok.text, p);
  }

  lemma LifetimePrefix(tok: Token) returns (p: string)
    requires WellFormed(tok) && tok.kind == Lifetime
    ensures p in {"", "b"} && |p| <= |tok.text| && tok.text[..|p|] == p && LifetimeText(tok.text[|p|..])
  {
    p :| p in {"", "b"} && |p| <= |tok.text| && tok.text[..|p|] == p && LifetimeText(tok.text[|p|..]);
  }

  lemma TokenIsNext(t: string, i: nat, tok: Token)
    requires TokenAt(t, i, tok)
    ensures Next(t, i) == Region(tok.kind, i + |tok.text|)
  {
    match tok.kind
    case LineComment => LineTokenIsNext(t, i, tok);
    case BlockComment => BlockTokenIsNext(t, i, tok);
    case RawString => RawIsNext(t, i, tok);
    case Str => StrIsNext(t, i, tok);
    case Chr => CharNext(t, i, tok);
    case Lifetime => LifetimeNext(t, i, tok);
    case Code => OpensExactly(t, i);
  }

  /** At every position at most one token stands, and the lexer finds it; where none does it gives up. */
  lemma NextExactly(t: string, i: nat)
    requires i < |t|
    ensures forall tok :: TokenAt(t, i, tok) <==> Next(t, i).Region? && tok == NextToken(t, i)
  {
    if Next(t, i).Region? {
      NextIsToken(t, i);
    }
    forall tok | TokenAt(t, i, tok)
      ensures Next(t, i).Region? && tok == NextToken(t, i)
    {
      TokenIsNext(t, i, tok);
    }
  }

  /** The tokens of a text, each with its position. */
  ghost function Cut(t: string): (cut: iset<(nat, Token)>) {
    iset i: nat, tok: Token | TokenAt(t, i, tok) :: (i, tok)
  }

  /** The tokens stand one after another from `i` to `k`. */
  ghost predicate Walk(cut: iset<(nat, Token)>, i: nat, ts: seq<Token>, k: nat)
    decreases |ts|
  {
    if ts == [] then i == k else (i, ts[0]) in cut && Walk(cut, i + |ts[0].text|, ts[1..], k)
  }

  /** The cut holds only the lexer's regions. */
  ghost predicate Sound(t: string, cut: iset<(nat, Token)>) {
    forall i: nat, tok: Token {:trigger (i, tok) in cut} :: (i, tok) in cut ==> IsNext(t, i, tok)
  }

  /** The cut holds all of the lexer's regions. */
  ghost predicate Complete(t: string, cut: iset<(nat, Token)>) {
    forall i: nat :: i < |t| && Next(t, i).Region? ==> (i, NextToken(t, i)) in cut
  }

  ghost predicate IsNext(t: string, i: nat, tok: Token) {
    i < |t| && Next(t, i).Region? && tok == NextToken(t, i)
  }

  lemma CutMatches(t: string)
    ensures Sound(t, Cut(t)) && Complete(t, Cut(t))
  {
    forall i: nat, tok: Token
      ensures (i, tok) in Cut(t) <==> IsNext(t, i, tok)
    {
      if i < |t| {
        NextExactly(t, i);
      }
    }
  }

  lemma {:induction false} LexedWalks(t: string, cut: iset<(nat, Token)>, i: nat, ts: seq<Token>)
    requires Complete(t, cut) && i <= |t| && Lex(t, i) == Some(ts)
    ensures Walk(cut, i, ts, |t|)
    decreases |t| - i
  {
    if i < |t| {
      var end := Next(t, i).end;
      assert ts[0] == NextToken(t, i) && ts[1..] == Lex(t, end).value;
      LexedWalks(t, cut, end, ts[1..]);
    }
  }

  /** At most one token at each position, and none at or after `n`. */
  ghost predicate Single(cut: iset<(nat, Token)>, n: nat) {
    && (forall i: nat, a: Token, b: Token :: (i, a) in cut && (i, b) in cut ==> a == b)
    && (forall i: nat, a: Token :: (i, a) in cut ==> i < n)
  }

  lemma CutSingle(t: string)
    ensures Single(Cut(t), |t|)
  {
    var cut := Cut(t);
    forall i: nat, a: Token, b: Token | (i, a) in cut && (i, b) in cut
      ensures a == b
    {
      NextExactly(t, i);
    }
  }

  lemma WalkEnds(cut: iset<(nat, Token)>, n: nat, ts: seq<Token>)
    requires Single(cut, n) && Walk(cut, n, ts, n)
    ensures ts == []
  {
  }

  /** Two walks to the end of the text take the same tokens. */
  lemma {:induction false} WalkOnce(cut: iset<(nat, Token)>, n: nat, i: nat, ts: seq<Token>, us: seq<Token>)
    requires Single(cut, n) && Walk(cut, i, ts, n) && Walk(cut, i, us, n)
    ensures ts == us
    decreases |ts|
  {
    if ts == [] {
      WalkEnds(cut, n, us);
    } else if us == [] {
      WalkEnds(cut, n, ts);
    } else {
      assert (i, ts[0]) in cut && (i, us[0]) in cut;
      WalkOnce(cut, n, i + |ts[0].text|, ts[1..], us[1..]);
      assert ts == [ts[0]] + ts[1..] && us == [us[0]] + us[1..];
    }
  }

  lemma TokenLeads(t: string, cut: iset<(nat, Token)>, i: nat, tok: Token)
    requires Sound(t, cut) && (i, tok) in cut
    ensures i < |t| && Next(t, i).Region? && i + |tok.text| == Next(t, i).end
  {
    assert IsNext(t, i, tok);
  }

  lemma WalkTail(cut: iset<(nat, Token)>, i: nat, ts: seq<Token>, k: nat) returns (end: nat)
    requires ts != [] && Walk(cut, i, ts, k)
    ensures (i, ts[0]) in cut && end == i + |ts[0].text| && Walk(cut, end, ts[1..], k)
  {
    end := i + |ts[0].text|;
  }

  lemma TokenArrives(t: string, cut: iset<(nat, Token)>, i: nat, tok: Token, k: nat)
    requires Sound(t, cut) && (i, tok) in cut && Arrives(t, i + |tok.text|, k)
    ensures Arrives(t, i, k)
  {
    TokenLeads(t, cut, i, tok);
    ArrivesNext(t, i, k);
  }

  lemma ArrivesNext(t: string, i: nat, k: nat)
    requires i < |t| && Next(t, i).Region? && Arrives(t, Next(t, i).end, k)
    ensures Arrives(t, i, k)
  {
  }

  /** The positions from which the lexer arrives at `k`. */
  ghost function Back(t: string, k: nat): (back: iset<nat>) {
    iset j: nat | Arrives(t, j, k)
  }

  /** No token enters the set from outside. */
  ghost predicate Closed(cut: iset<(nat, Token)>, back: iset<nat>) {
    forall i: nat, tok: Token {:trigger (i, tok) in cut} :: (i, tok) in cut ==> Enters(i, tok, back)
  }

  predicate Enters(i: nat, tok: Token, back: iset<nat>) {
    i + |tok.text| in back ==> i in back
  }

  lemma TokenEnters(t: string, cut: iset<(nat, Token)>, i: nat, tok: Token, k: nat)
    requires Sound(t, cut) && (i, tok) in cut
    ensures Enters(i, tok, Back(t, k))
  {
    if Arrives(t, i + |tok.text|, k) {
      TokenArrives(t, cut, i, tok, k);
    }
  }

  lemma BackClosed(t: string, cut: iset<(nat, Token)>, k: nat)
    requires Sound(t, cut)
    ensures Closed(cut, Back(t, k))
  {
    forall i: nat, tok: Token | (i, tok) in cut
      ensures Enters(i, tok, Back(t, k))
    {
      TokenEnters(t, cut, i, tok, k);
    }
  }

  lemma {:induction false} WalkBack(cut: iset<(nat, Token)>, back: iset<nat>, i: nat, ts: seq<Token>, k: nat)
    requires Walk(cut, i, ts, k) && k in back && Closed(cut, back)
    ensures i in back
    decreases |ts|
  {
    if ts != [] {
      var end := WalkTail(cut, i, ts, k);
      WalkBack(cut, back, end, ts[1..], k);
      assert Enters(i, ts[0], back);
    }
  }

  lemma WalkArrives(t: string, cut: iset<(nat, Token)>, i: nat, ts: seq<Token>, k: nat)
    requires Sound(t, cut) && Walk(cut, i, ts, k)
    ensures Arrives(t, i, k)
  {
    BackClosed(t, cut, k);
    WalkBack(cut, Back(t, k), i, ts, k);
  }

  lemma {:induction false} ArrivesByWalk(t: string, cut: iset<(nat, Token)>, i: nat, k: nat) returns (ts: seq<Token>)
    requires Complete(t, cut) && i <= |t| && Arrives(t, i, k)
    ensures Walk(cut, i, ts, k)
    decreases |t| - i
  {
    if i == k {
      ts := [];
    } else {
      var rest := ArrivesByWalk(t, cut, Next(t, i).end, k);
      ts := [NextToken(t, i)] + rest;
      assert ts[1..] == rest;
    }
  }

  /** What is left of the tokens: nothing of a line comment, one space of a block comment, an empty literal of any
      literal, and a lifetime or a code character itself. */
  ghost predicate Leaves(ts: seq<Token>, s: string) {
    if ts == [] then s == ""
    else match ts[0].kind
      case LineComment => Leaves(ts[1..], s)
      case BlockComment => s != "" && s[0] == ' ' && Leaves(ts[1..], s[1..])
      case RawString => EmptyLiteral(s) && Leaves(ts[1..], s[2..])
      case Str => EmptyLiteral(s) && Leaves(ts[1..], s[2..])
      case Chr => EmptyLiteral(s) && Leaves(ts[1..], s[2..])
      case Lifetime => ts[0].text <= s && Leaves(ts[1..], s[|ts[0].text|..])
      case Code => ts[0].text <= s && Leaves(ts[1..], s[|ts[0].text|..])
  }

  predicate EmptyLiteral(s: string) {
    |s| >= 2 && s[0] == '"' && s[1] == '"'
  }

  lemma {:induction false} OutputLeaves(ts: seq<Token>)
    ensures Leaves(ts, Output(ts))
  {
    if ts != [] {
      OutputLeaves(ts[1..]);
      var image, rest := Image(ts[0].kind, ts[0].text), Output(ts[1..]);
      assert (image + rest)[|image|..] == rest;
    }
  }

  /** `s` is what the tokens of `t` leave. */
  ghost predicate StrippedTo(t: string, s: string) {
    exists ts :: Walk(Cut(t), 0, ts, |t|) && Leaves(ts, s)
  }

  /** The tokens lead to a position at which no token stands. */
  ghost predicate Stuck(t: string) {
    exists ts, k :: Walk(Cut(t), 0, ts, k) && NoToken(t, k)
  }

  ghost predicate NoToken(t: string, k: nat) {
    k < |t| && forall tok :: !TokenAt(t, k, tok)
  }

  /** The lexer gives up exactly where no token stands. */
  lemma NoTokenExactly(t: string, k: nat)
    requires k < |t|
    ensures Unclosable(t, k) <==> NoToken(t, k)
  {
    UnlexableExactly(t, k);
    NextExactly(t, k);
    if Next(t, k).Region? {
      assert TokenAt(t, k, NextToken(t, k));
    }
  }

  /** The two readings of a refusal agree. */
  lemma StuckExactly(t: string)
    ensures Stuck(t) <==> Refused(t)
  {
    CutMatches(t);
    var cut := Cut(t);
    if ts, k :| Walk(cut, 0, ts, k) && NoToken(t, k) {
      WalkArrives(t, cut, 0, ts, k);
      NoTokenExactly(t, k);
    }
    if k: nat :| Arrives(t, 0, k) && Unclosable(t, k) {
      NoTokenExactly(t, k);
      var ts := ArrivesByWalk(t, cut, 0, k);
    }
  }

  lemma {:induction false} LeavesOnce(ts: seq<Token>, a: string, b: string)
    requires Leaves(ts, a) && Leaves(ts, b)
    ensures a == b
  {
    if ts != [] {
      match ts[0].kind
      case LineComment => LeavesOnce(ts[1..], a, b);
      case BlockComment => LeavesOnce(ts[1..], a[1..], b[1..]);
      case RawString => LeavesOnce(ts[1..], a[2..], b[2..]);
      case Str => LeavesOnce(ts[1..], a[2..], b[2..]);
      case Chr => LeavesOnce(ts[1..], a[2..], b[2..]);
      case Lifetime => LeavesOnce(ts[1..], a[|ts[0].text|..], b[|ts[0].text|..]);
      case Code => LeavesOnce(ts[1..], a[|ts[0].text|..], b[|ts[0].text|..]);
    }
  }

  /** A text is cut into tokens in one way at most, and leaves one text at most. */
  lemma StrippedOnce(t: string, a: string, b: string)
    requires StrippedTo(t, a) && StrippedTo(t, b)
    ensures a == b
  {
    CutSingle(t);
    var cut := Cut(t);
    var ts :| Walk(cut, 0, ts, |t|) && Leaves(ts, a);
    var us :| Walk(cut, 0, us, |t|) && Leaves(us, b);
    WalkOnce(cut, |t|, 0, ts, us);
    LeavesOnce(ts, a, b);
  }

  // ---------------------------------------------------------------- the loops

  /** The depth-counting loop over a block comment. */
  method CloseComment(t: string, start: nat) returns (end: Option<nat>)
    requires start <= |t|
    ensures end == Close(t, start, 1)
  {
    var depth, i := 1, start;
    while depth > 0
      invariant start <= i <= |t| && depth >= 0
      invariant Close(t, i, depth) == Close(t, start, 1)
      decreases |t| - i, depth
    {
      if i >= |t| {
        return None;
      }
      if Pair(t, i, '/', '*') {
        depth, i := depth + 1, i + 2;
      } else if Pair(t, i, '*', '/') {
        depth, i := depth - 1, i + 2;
      } else {
        i := i + 1;
      }
    }
    end := Some(i);
  }

  /** The scan of a quoted string; an escape may step past the end of the text. */
  method CloseString(t: string, start: nat) returns (end: Option<nat>)
    ensures end == StringEnd(t, start)
  {
    var i := start;
    while i < |t|
      invariant StringEnd(t, i) == StringEnd(t, start)
    {
      if t[i] == '\\' {
        i := i + 2;
      } else if t[i] == '"' {
        return Some(i + 1);
      } else {
        i := i + 1;
      }
    }
    end := None;
  }

  /** The branch for a quote at `q`. */
  method ReadQuote(t: string, q: nat) returns (s: Step)
    requires q < |t| && t[q] == '\''
    ensures s == QuoteStep(t, q)
  {
    if q + 1 < |t| && t[q + 1] == '\\' {
      var close := Find(t, "'", if q + 2 < |t| && t[q + 2] == '\'' then q + 3 else q + 2);
      if close.None? || close.value - q > 12 {
        return Unlexable;
      }
      return Region(Chr, close.value + 1);
    }
    if q + 2 < |t| && t[q + 2] == '\'' {
      return Region(Chr, q + 3);
    }
    if q + 1 < |t| && Ident(t[q + 1]) {
      return Region(Lifetime, q + 2);
    }
    return Unlexable;
  }

  /** One round of the main loop: the branches in their order. */
  method NextRegion(t: string, i: nat) returns (s: Step)
    requires i < |t|
    ensures s == Next(t, i)
  {
    if Pair(t, i, '/', '/') {
      var end := Find(t, "\n", i);
      return Region(LineComment, if end.None? then |t| else end.value);
    }
    if Pair(t, i, '/', '*') {
      var end := CloseComment(t, i + 2);
      return if end.None? then Unlexable else Region(BlockComment, end.value);
    }
    var raw := RawOpen(t, i);
    if raw.Some? && !PrevIdent(t, i) {
      var (h, at) := raw.value;
      var end := Find(t, "\"" + Hash(h), at);
      return if end.None? then Unlexable else Region(RawString, end.value + 1 + h);
    }
    if t[i] == '"' {
      var end := CloseString(t, i + 1);
      return if end.None? then Unlexable else Region(Str, end.value);
    }
    if t[i] in {'b', 'c'} && i + 1 < |t| && t[i + 1] == '"' && !PrevIdent(t, i) {
      var end := CloseString(t, i + 2);
      return if end.None? then Unlexable else Region(Str, end.value);
    }
    if t[i] == '\'' {
      s := ReadQuote(t, i);
    } else if t[i] == 'b' && i + 1 < |t| && t[i + 1] == '\'' && !PrevIdent(t, i) {
      s := ReadQuote(t, i + 1);
    } else {
      s := Region(Code, i + 1);
    }
  }

  lemma {:induction false} LexedIsSound(t: string)
    requires Lex(t, 0).Some?
    ensures CutInto(Lex(t, 0).value, t) && NoOpeners(Output(Lex(t, 0).value))
  {
    var ts := Lex(t, 0).value;
    RegionsCoverText(t, 0, ts);
    OutputHasNoComment(t, 0, ts);
    forall k | 0 <= k < |ts|
      ensures WellFormed(ts[k])
    {
      RegionsWellFormed(t, 0, ts, k);
    }
    assert t[0..] == t;
  }

  /** A refused text is cut into well-formed regions up to an opener that no prefix of the rest closes. */
  lemma RefusedByRegions(t: string) returns (k: nat, ts: seq<Token>)
    requires Refused(t)
    ensures Unclosable(t, k) && CutInto(ts, t[..k])
  {
    k :| Arrives(t, 0, k) && Unclosable(t, k);
    ts := ArrivesByRegions(t, 0, k);
    assert t[0..k] == t[..k];
  }

  /** The loop appends the image of one region after another, or meets one it cannot close. */
  method LexAll(t: string) returns (r: Option<string>)
    ensures r.None? <==> Lex(t, 0).None?
    ensures r.Some? ==> r.value == Output(Lex(t, 0).value)
  {
    var out, i := "", 0;
    while i < |t|
      invariant i <= |t|
      invariant Lex(t, 0).None? <==> Lex(t, i).None?
      invariant Lex(t, i).Some? ==> Output(Lex(t, 0).value) == out + Output(Lex(t, i).value)
    {
      var s := NextRegion(t, i);
      if s.Unlexable? {
        return None;
      }
      out := out + Image(s.kind, t[i..s.end]);
      i := s.end;
    }
    r := Some(out);
  }

  /**
   * `strip_noise`. The text is cut into the tokens that stand one after another; it is refused exactly when they lead
   * to a position where none stands, equivalently to an opener that no prefix of the rest can close. Otherwise the
   * output is what those tokens leave, and opens no comment.
   */
  method StripNoise(t: string) returns (r: Option<string>)
    ensures r.None? <==> Stuck(t)
    ensures r.None? <==> Refused(t)
    ensures r.Some? ==> StrippedTo(t, r.value) && NoOpeners(r.value)
    ensures r.Some? ==> Lex(t, 0).Some? && CutInto(Lex(t, 0).value, t)
  {
    r := LexAll(t);
    RefusedExactly(t, 0);
    StuckExactly(t);
    if r.Some? {
      LexedIsSound(t);
      CutMatches(t);
      LexedWalks(t, Cut(t), 0, Lex(t, 0).value);
      OutputLeaves(Lex(t, 0).value);
    }
  }
}
