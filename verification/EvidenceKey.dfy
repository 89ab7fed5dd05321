/**
 * `evidence_key.py`: the files an evidence record vouches for, the key that stands for their bytes,
 * and the decision to reuse the record.
 */
module EvidenceKey {
  import opened Lists

  type Path = string
  type Blob = string

  /** Files an include scan finds in one source, and the sites it cannot resolve. */
  datatype Scan = Scan(found: set<Path>, sites: set<string>)

  datatype Unknown = Site(at: string) | Missing(path: Path)

  const MAX_SCAN_FILES := 5000

  predicate Rust(p: Path) {
    |p| >= 3 && p[|p| - 3..] == ".rs"
  }

  /** `p` is `q` itself or lies in the directory `q`. */
  predicate At(p: Path, q: Path) {
    p == q || (|p| > |q| && p[..|q|] == q && p[|q|] == '/')
  }

  /** The two tests as texts. */
  lemma PathsExactly(p: Path, q: Path)
    ensures Rust(p) <==> exists stem :: p == stem + ".rs"
    ensures At(p, q) <==> p == q || exists rest :: p == q + "/" + rest
  {
    if Rust(p) {
      assert p == p[..|p| - 3] + ".rs";
    }
    if At(p, q) && p != q {
      assert p == q + "/" + p[|q| + 1..];
    }
  }

  /** `git ls-tree -r` of `paths` in `tree`: a directory lists every file below it. */
  function LsTree(tree: map<Path, Blob>, paths: set<Path>): (r: map<Path, Blob>)
    ensures forall p :: p in r <==> p in tree && exists q :: q in paths && At(p, q)
    ensures forall p :: p in r ==> r[p] == tree[p]
  {
    map p | p in tree && exists q :: q in paths && At(p, q) :: tree[p]
  }

  /** Everything the scans of the sources in `some` find. */
  function Embedded(blobs: map<Path, Blob>, some: set<Path>, scan: (Path, Blob) -> Scan): (r: set<Path>)
    requires some <= blobs.Keys
  {
    set p, q | p in some && q in scan(p, blobs[p]).found :: q
  }

  function Sites(blobs: map<Path, Blob>, some: set<Path>, scan: (Path, Blob) -> Scan): (r: set<Unknown>)
    requires some <= blobs.Keys
  {
    set p, s | p in some && s in scan(p, blobs[p]).sites :: Site(s)
  }

  /** A file map is closed when every include of each of its Rust sources is in it. */
  ghost predicate Closed(blobs: map<Path, Blob>, scan: (Path, Blob) -> Scan) {
    forall p, q :: p in blobs && Rust(p) && q in scan(p, blobs[p]).found ==> q in blobs
  }

  /** Every include site of every Rust source in the map is a plain literal. */
  ghost predicate AllLiteral(blobs: map<Path, Blob>, scan: (Path, Blob) -> Scan) {
    forall p :: p in blobs && Rust(p) ==> scan(p, blobs[p]).sites == {}
  }

  ghost predicate Submap(a: map<Path, Blob>, b: map<Path, Blob>) {
    forall p :: p in a ==> p in b && a[p] == b[p]
  }

  /** `m` holds, with each source, whatever the listing of its includes holds. */
  ghost predicate Follows(m: map<Path, Blob>, tree: map<Path, Blob>, scan: (Path, Blob) -> Scan) {
    forall p, q :: p in m && Rust(p) && q in scan(p, m[p]).found ==> Submap(LsTree(tree, {q}), m)
  }

  /** The scanned sources account for `unknown` exactly, and their other includes are in the map. */
  ghost predicate Settled(tree: map<Path, Blob>, blobs: map<Path, Blob>, scan: (Path, Blob) -> Scan,
                          scanned: set<Path>, unknown: set<Unknown>) {
    && scanned <= blobs.Keys
    && (forall p, q :: p in scanned && q in scan(p, blobs[p]).found ==> q in blobs || Missing(q) in unknown)
    && (forall p, s :: p in scanned && s in scan(p, blobs[p]).sites ==> Site(s) in unknown)
    && (forall u :: u in unknown ==> Caused(tree, blobs, scan, scanned, u))
  }

  /** Some scanned source has this unresolvable site, or embeds this file absent from the revision. */
  ghost predicate Caused(tree: map<Path, Blob>, blobs: map<Path, Blob>, scan: (Path, Blob) -> Scan,
                         scanned: set<Path>, u: Unknown)
    requires scanned <= blobs.Keys
  {
    exists p :: p in scanned && match u {
      case Site(s) => s in scan(p, blobs[p]).sites
      case Missing(q) => q in scan(p, blobs[p]).found && q !in tree
    }
  }

  /** How far the scan has come: every Rust source of the map is scanned or waiting. */
  ghost predicate Progress(tree: map<Path, Blob>, start: map<Path, Blob>, blobs: map<Path, Blob>,
                           scanned: set<Path>, waiting: set<Path>) {
    && Submap(start, blobs) && Submap(blobs, tree) && scanned !! waiting
    && (forall p :: p in blobs && Rust(p) <==> p in scanned + waiting)
  }

  lemma RoundProgress(tree: map<Path, Blob>, start: map<Path, Blob>, blobs: map<Path, Blob>,
                      scanned: set<Path>, waiting: set<Path>, resolved: map<Path, Blob>)
    requires Progress(tree, start, blobs, scanned, waiting) && Submap(resolved, tree)
    ensures var next := set p | p in resolved && Rust(p) && p !in scanned + waiting;
            Progress(tree, start, blobs + resolved, scanned + waiting, next)
  {
  }

  lemma RoundSettles(tree: map<Path, Blob>, blobs: map<Path, Blob>, scan: (Path, Blob) -> Scan,
                     scanned: set<Path>, waiting: set<Path>, unknown: set<Unknown>)
    requires Submap(blobs, tree) && waiting <= blobs.Keys && Settled(tree, blobs, scan, scanned, unknown)
    ensures var missing := Embedded(blobs, waiting, scan) - blobs.Keys;
            var resolved := LsTree(tree, missing);
            var lost := set p | p in missing && p !in resolved :: Missing(p);
            Settled(tree, blobs + resolved, scan, scanned + waiting, unknown + Sites(blobs, waiting, scan) + lost)
  {
    var missing := Embedded(blobs, waiting, scan) - blobs.Keys;
    var resolved := LsTree(tree, missing);
    var lost := set p | p in missing && p !in resolved :: Missing(p);
    var after := blobs + resolved;
    var sites := Sites(blobs, waiting, scan);
    assert forall p :: p in blobs ==> after[p] == blobs[p];
    assert forall q :: q in missing && q !in resolved ==> q !in tree by {
      assert forall q :: q in missing ==> At(q, q);
    }
    forall p, q | p in scanned + waiting && q in scan(p, after[p]).found
      ensures q in after || Missing(q) in unknown + sites + lost
    {
      if p in waiting {
        assert q in Embedded(blobs, waiting, scan);
      }
    }
    forall u | u in unknown + sites + lost
      ensures Caused(tree, after, scan, scanned + waiting, u)
    {
      if u in unknown {
        assert Caused(tree, blobs, scan, scanned, u);
      } else if u in lost {
        var p :| p in waiting && u.path in scan(p, blobs[p]).found;
      }
    }
  }

  /** The files found are in every map that holds `start` and follows its own includes. */
  lemma RoundLeast(tree: map<Path, Blob>, blobs: map<Path, Blob>, scan: (Path, Blob) -> Scan, waiting: set<Path>,
                   m: map<Path, Blob>)
    requires waiting <= blobs.Keys && (forall p :: p in waiting ==> Rust(p))
    requires Submap(blobs, m) && Follows(m, tree, scan)
    ensures Submap(blobs + LsTree(tree, Embedded(blobs, waiting, scan) - blobs.Keys), m)
  {
    var missing := Embedded(blobs, waiting, scan) - blobs.Keys;
    forall x | x in LsTree(tree, missing)
      ensures x in m && m[x] == tree[x]
    {
      var q :| q in missing && At(x, q);
      var p :| p in waiting && q in scan(p, blobs[p]).found;
      assert p in m && scan(p, m[p]) == scan(p, blobs[p]);
      assert x in LsTree(tree, {q}) by { assert q in {q}; }
    }
  }

  datatype Found = TooMany | Found(blobs: map<Path, Blob>, unknown: set<Unknown>)

  /** No file lies below another file, as in any git tree. */
  ghost predicate FileTree(tree: map<Path, Blob>) {
    forall p, q :: p in tree && q in tree && At(p, q) ==> p == q
  }

  /** The includes of the scanned sources are listed in the map. */
  ghost predicate Followed(tree: map<Path, Blob>, blobs: map<Path, Blob>, scan: (Path, Blob) -> Scan,
                           scanned: set<Path>)
    requires scanned <= blobs.Keys
  {
    forall p, q :: p in scanned && q in scan(p, blobs[p]).found ==> Submap(LsTree(tree, {q}), blobs)
  }

  /** Listing what is missing leaves every include of the waiting sources listed. */
  lemma RoundFollows(tree: map<Path, Blob>, blobs: map<Path, Blob>, scan: (Path, Blob) -> Scan, scanned: set<Path>,
                     waiting: set<Path>)
    requires FileTree(tree) && Submap(blobs, tree) && scanned + waiting <= blobs.Keys
    requires Followed(tree, blobs, scan, scanned)
    ensures var resolved := LsTree(tree, Embedded(blobs, waiting, scan) - blobs.Keys);
            Followed(tree, blobs + resolved, scan, scanned + waiting)
  {
    var missing := Embedded(blobs, waiting, scan) - blobs.Keys;
    var after := blobs + LsTree(tree, missing);
    assert forall p :: p in blobs ==> after[p] == tree[p] == blobs[p];
    forall p, q, x | p in scanned + waiting && q in scan(p, after[p]).found && x in LsTree(tree, {q})
      ensures x in after && after[x] == tree[x]
    {
      assert At(x, q);
      if p in scanned {
        assert Submap(LsTree(tree, {q}), blobs);
      } else if q in blobs {
        assert x == q;
      } else {
        assert q in Embedded(blobs, waiting, scan);
      }
    }
  }

  /** Every map that holds `start` and follows its own includes holds these files. */
  ghost predicate Needed(tree: map<Path, Blob>, start: map<Path, Blob>, scan: (Path, Blob) -> Scan,
                         blobs: map<Path, Blob>) {
    forall m :: Submap(start, m) && Follows(m, tree, scan) ==> Submap(blobs, m)
  }

  lemma RoundNeeded(tree: map<Path, Blob>, start: map<Path, Blob>, blobs: map<Path, Blob>, scan: (Path, Blob) -> Scan,
                    waiting: set<Path>)
    requires waiting <= blobs.Keys && (forall p :: p in waiting ==> Rust(p)) && Needed(tree, start, scan, blobs)
    ensures Needed(tree, start, scan, blobs + LsTree(tree, Embedded(blobs, waiting, scan) - blobs.Keys))
  {
    forall m | Submap(start, m) && Follows(m, tree, scan)
      ensures Submap(blobs + LsTree(tree, Embedded(blobs, waiting, scan) - blobs.Keys), m)
    {
      RoundLeast(tree, blobs, scan, waiting, m);
    }
  }

  lemma NeededTooMany(tree: map<Path, Blob>, start: map<Path, Blob>, blobs: map<Path, Blob>, scan: (Path, Blob) -> Scan,
                      some: set<Path>)
    requires Needed(tree, start, scan, blobs) && some <= blobs.Keys && (forall p :: p in some ==> Rust(p))
    ensures forall m :: Submap(start, m) && Follows(m, tree, scan) ==> |some| <= |RustIn(m)|
  {
    forall m | Submap(start, m) && Follows(m, tree, scan)
      ensures |some| <= |RustIn(m)|
    {
      RustGrows(some, m);
    }
  }

  function RustIn(m: map<Path, Blob>): (r: set<Path>) {
    set p | p in m && Rust(p)
  }

  lemma RustGrows(a: set<Path>, m: map<Path, Blob>)
    requires forall p :: p in a ==> p in m && Rust(p)
    ensures |a| <= |RustIn(m)|
  {
    var rest := RustIn(m) - a;
    assert RustIn(m) == a + rest;
  }

  /** What holds between two rounds. */
  ghost predicate Scanning(tree: map<Path, Blob>, start: map<Path, Blob>, blobs: map<Path, Blob>,
                           scan: (Path, Blob) -> Scan, scanned: set<Path>, waiting: set<Path>, unknown: set<Unknown>) {
    && Progress(tree, start, blobs, scanned, waiting) && Settled(tree, blobs, scan, scanned, unknown)
    && (FileTree(tree) ==> Followed(tree, blobs, scan, scanned)) && Needed(tree, start, scan, blobs)
  }

  lemma RoundKeeps(tree: map<Path, Blob>, start: map<Path, Blob>, blobs: map<Path, Blob>, scan: (Path, Blob) -> Scan,
                   scanned: set<Path>, waiting: set<Path>, unknown: set<Unknown>)
    requires Scanning(tree, start, blobs, scan, scanned, waiting, unknown) && waiting <= blobs.Keys
    ensures var missing := Embedded(blobs, waiting, scan) - blobs.Keys;
            var resolved := LsTree(tree, missing);
            var lost := set p | p in missing && p !in resolved :: Missing(p);
            var next := set p | p in resolved && Rust(p) && p !in scanned + waiting;
            Scanning(tree, start, blobs + resolved, scan, scanned + waiting, next,
                     unknown + Sites(blobs, waiting, scan) + lost)
  {
    RoundProgress(tree, start, blobs, scanned, waiting, LsTree(tree, Embedded(blobs, waiting, scan) - blobs.Keys));
    RoundSettles(tree, blobs, scan, scanned, waiting, unknown);
    RoundNeeded(tree, start, blobs, scan, waiting);
    if FileTree(tree) {
      RoundFollows(tree, blobs, scan, scanned, waiting);
    }
  }

  /** When nothing waits, the map and the unknowns are the answer. */
  lemma ScanEnds(tree: map<Path, Blob>, start: map<Path, Blob>, blobs: map<Path, Blob>, scan: (Path, Blob) -> Scan,
                 scanned: set<Path>, unknown: set<Unknown>)
    requires Scanning(tree, start, blobs, scan, scanned, {}, unknown)
    ensures scanned == RustIn(blobs) && (FileTree(tree) ==> Follows(blobs, tree, scan))
    ensures forall u :: u in unknown <==> Caused(tree, blobs, scan, RustIn(blobs), u)
    ensures unknown == {} <==> Closed(blobs, scan) && AllLiteral(blobs, scan)
  {
    assert scanned == RustIn(blobs);
    ClosedExactly(tree, blobs, scan, scanned, unknown);
    UnknownExactly(tree, blobs, scan, scanned, unknown);
  }

  /**
   * `closure_blobs`: `start` and everything its Rust sources embed, followed to a fixpoint. The result is the least
   * map that holds `start` and follows its own includes; what is unknown is exactly each unresolvable site and each
   * include absent from the revision; and the scan gives up exactly when that map has too many Rust sources.
   */
  method ClosureBlobs(tree: map<Path, Blob>, start: map<Path, Blob>, scan: (Path, Blob) -> Scan) returns (r: Found)
    requires Submap(start, tree)
    ensures r.Found? ==>
              && Submap(start, r.blobs) && Submap(r.blobs, tree) && |RustIn(r.blobs)| <= MAX_SCAN_FILES
              && (FileTree(tree) ==> Follows(r.blobs, tree, scan))
              && Needed(tree, start, scan, r.blobs)
              && (forall u :: u in r.unknown <==> Caused(tree, r.blobs, scan, RustIn(r.blobs), u))
              && (r.unknown == {} <==> Closed(r.blobs, scan) && AllLiteral(r.blobs, scan))
    ensures r.TooMany? ==>
              forall m :: Submap(start, m) && Follows(m, tree, scan) ==> |RustIn(m)| > MAX_SCAN_FILES
  {
    var blobs, unknown: set<Unknown> := start, {};
    var scanned: set<Path>, waiting := {}, set p | p in start && Rust(p);
    while waiting != {}
      invariant Scanning(tree, start, blobs, scan, scanned, waiting, unknown) && |scanned| <= MAX_SCAN_FILES
      decreases tree.Keys - scanned
    {
      assert waiting <= blobs.Keys && |scanned + waiting| == |scanned| + |waiting|;
      if |scanned| + |waiting| > MAX_SCAN_FILES {
        NeededTooMany(tree, start, blobs, scan, scanned + waiting);
        return TooMany;
      }
      var missing := Embedded(blobs, waiting, scan) - blobs.Keys;
      var resolved := LsTree(tree, missing);
      var lost := set p | p in missing && p !in resolved :: Missing(p);
      RoundKeeps(tree, start, blobs, scan, scanned, waiting, unknown);
      assert waiting <= tree.Keys - scanned;
      unknown := unknown + Sites(blobs, waiting, scan) + lost;
      blobs := blobs + resolved;
      scanned := scanned + waiting;
      waiting := set p | p in resolved && Rust(p) && p !in scanned;
    }
    ScanEnds(tree, start, blobs, scan, scanned, unknown);
    r := Found(blobs, unknown);
  }

  lemma UnknownExactly(tree: map<Path, Blob>, blobs: map<Path, Blob>, scan: (Path, Blob) -> Scan,
                       scanned: set<Path>, unknown: set<Unknown>)
    requires Submap(blobs, tree) && Settled(tree, blobs, scan, scanned, unknown)
    ensures forall u :: u in unknown <==> Caused(tree, blobs, scan, scanned, u)
  {
  }

  lemma ClosedExactly(tree: map<Path, Blob>, blobs: map<Path, Blob>, scan: (Path, Blob) -> Scan,
                      scanned: set<Path>, unknown: set<Unknown>)
    requires Submap(blobs, tree) && Settled(tree, blobs, scan, scanned, unknown)
    requires forall p :: p in blobs && Rust(p) <==> p in scanned
    ensures unknown == {} <==> Closed(blobs, scan) && AllLiteral(blobs, scan)
  {
    if u :| u in unknown {
      assert Caused(tree, blobs, scan, scanned, u);
    }
    if p, q :| p in blobs && Rust(p) && q in scan(p, blobs[p]).found && q !in blobs {
      assert Missing(q) in unknown;
    }
    if p, s :| p in blobs && Rust(p) && s in scan(p, blobs[p]).sites {
      assert Site(s) in unknown;
    }
  }

  // ---------------------------------------------------------------- the key

  /** Python's string order, by code point. */
  predicate Less(a: string, b: string) {
    b != "" && (a == "" || a[0] < b[0] || (a[0] == b[0] && Less(a[1..], b[1..])))
  }

  lemma {:induction false} LessTotal(a: string, b: string)
    ensures a == b || Less(a, b) || Less(b, a)
  {
    if a != "" && b != "" && a[0] == b[0] {
      LessTotal(a[1..], b[1..]);
      assert a == [a[0]] + a[1..] && b == [b[0]] + b[1..];
    }
  }

  lemma {:induction false} LessTransitive(a: string, b: string, c: string)
    requires Less(a, b) && Less(b, c)
    ensures Less(a, c)
  {
    if a != "" && a[0] == b[0] && b[0] == c[0] {
      LessTransitive(a[1..], b[1..], c[1..]);
    }
  }

  lemma {:induction false} HasMinimum(s: set<string>) returns (m: string)
    requires s != {}
    ensures m in s && forall x :: x in s && x != m ==> Less(m, x)
    decreases |s|
  {
    var x :| x in s;
    if y :| y in s && y != x {
      var rest := s - {x};
      assert y in rest;
      var least := HasMinimum(rest);
      LessTotal(x, least);
      if Less(x, least) {
        m := x;
        forall z | z in rest && z != least
          ensures Less(x, z)
        {
          LessTransitive(x, least, z);
        }
      } else {
        m := least;
      }
    } else {
      m := x;
    }
  }

  lemma MinimumExists(s: set<string>)
    requires s != {}
    ensures exists m :: m in s && forall x :: x in s && x != m ==> Less(m, x)
  {
    var m := HasMinimum(s);
  }

  ghost function Minimum(s: set<string>): (m: string)
    requires s != {}
    ensures m in s && forall x :: x in s && x != m ==> Less(m, x)
  {
    MinimumExists(s);
    var m :| m in s && forall x :: x in s && x != m ==> Less(m, x);
    m
  }

  /** `sorted(s)`. */
  ghost function Sorted(s: set<string>): (l: seq<string>)
    ensures forall x :: x in l <==> x in s
    ensures forall i, j :: 0 <= i < j < |l| ==> Less(l[i], l[j])
    decreases |s|
  {
    if s == {} then [] else [Minimum(s)] + Sorted(s - {Minimum(s)})
  }

  /** The text the digest covers: `path NUL blob LF` for each path of `l`. */
  ghost function Encode(l: seq<Path>, blobs: map<Path, Blob>): (text: string)
    requires forall p :: p in l ==> p in blobs
  {
    if l == [] then "" else l[0] + ['\0'] + blobs[l[0]] + ['\n'] + Encode(l[1..], blobs)
  }

  /** No path holds a NUL and no blob id a line feed. */
  ghost predicate Encodable(blobs: map<Path, Blob>) {
    forall p :: p in blobs ==> '\0' !in p && '\n' !in blobs[p]
  }

  lemma FieldsMatch(a: string, b: string, x: string, y: string, mark: char)
    requires mark !in a && mark !in b && a + [mark] + x == b + [mark] + y
    ensures a == b && x == y
  {
    var s, t := a + [mark] + x, b + [mark] + y;
    assert s[|a|] == mark && t[|b|] == mark;
    assert forall i :: 0 <= i < |a| ==> s[i] == a[i];
    assert forall i :: 0 <= i < |b| ==> t[i] == b[i];
    assert |a| == |b|;
    assert s[..|a|] == a && t[..|b|] == b;
    assert s[|a| + 1..] == x && t[|b| + 1..] == y;
  }

  /** The encoding is injective: equal texts come from the same paths with the same blobs. */
  lemma {:induction false} EncodeInjective(l: seq<Path>, a: map<Path, Blob>, k: seq<Path>, b: map<Path, Blob>)
    requires (forall p :: p in l ==> p in a) && (forall p :: p in k ==> p in b)
    requires Encodable(a) && Encodable(b) && Encode(l, a) == Encode(k, b)
    ensures l == k && forall p :: p in l ==> a[p] == b[p]
  {
    if l == [] || k == [] {
      assert l == [] ==> Encode(k, b) == "";
      assert k == [] ==> Encode(l, a) == "";
    } else {
      var p, q := l[0], k[0];
      var restA, restB := Encode(l[1..], a), Encode(k[1..], b);
      assert Encode(l, a) == p + ['\0'] + (a[p] + ['\n'] + restA);
      assert Encode(k, b) == q + ['\0'] + (b[q] + ['\n'] + restB);
      FieldsMatch(p, q, a[p] + ['\n'] + restA, b[q] + ['\n'] + restB, '\0');
      FieldsMatch(a[p], b[q], restA, restB, '\n');
      EncodeInjective(l[1..], a, k[1..], b);
      assert l == [p] + l[1..] && k == [q] + k[1..];
    }
  }

  /** `key_of`, with the digest taken to be injective. */
  ghost function KeyOf(blobs: map<Path, Blob>): (key: string) {
    Encode(Sorted(blobs.Keys), blobs)
  }

  /** Equal keys mean equal closures, and the other way round. */
  lemma KeyIsTheMap(a: map<Path, Blob>, b: map<Path, Blob>)
    requires Encodable(a) && Encodable(b)
    ensures KeyOf(a) == KeyOf(b) <==> a == b
  {
    if KeyOf(a) == KeyOf(b) {
      EncodeInjective(Sorted(a.Keys), a, Sorted(b.Keys), b);
      assert a.Keys == b.Keys by {
        assert forall p :: p in a.Keys <==> p in Sorted(a.Keys);
        assert forall p :: p in b.Keys <==> p in Sorted(b.Keys);
      }
      assert forall p :: p in a ==> p in Sorted(a.Keys);
      assert a == b;
    }
  }

  // ---------------------------------------------------------------- the decision

  datatype Decision = Reuse | Invalidate(changed: set<Path>, unknown: set<Unknown>)

  ghost function Changed(before: map<Path, Blob>, now: map<Path, Blob>): (r: set<Path>) {
    set p | p in before.Keys + now.Keys && (p !in before || p !in now || before[p] != now[p])
  }

  /** `decide`, where `recorded` is the closure of the recorded commit and its key the record's key. */
  ghost function Decide(recorded: map<Path, Blob>, now: map<Path, Blob>, unknown: set<Unknown>): (d: Decision) {
    if unknown != {} then Invalidate({}, unknown)
    else if KeyOf(now) == KeyOf(recorded) then Reuse
    else Invalidate(Changed(recorded, now), {})
  }

  /**
   * Reuse means the very same files with the very same bytes and nothing unresolved. An invalidation without an
   * unknown names exactly the paths that are new, gone or different, and there is at least one.
   */
  lemma DecideExactly(recorded: map<Path, Blob>, now: map<Path, Blob>, unknown: set<Unknown>)
    requires Encodable(recorded) && Encodable(now)
    ensures Decide(recorded, now, unknown) == Reuse <==> unknown == {} && now == recorded
    ensures var d := Decide(recorded, now, unknown);
            d.Invalidate? && d.unknown == {} ==> d.changed != {} && forall p :: p in d.changed <==>
              ((p in recorded) != (p in now)) || (p in recorded && p in now && recorded[p] != now[p])
    ensures unknown != {} ==> Decide(recorded, now, unknown) == Invalidate({}, unknown)
  {
    KeyIsTheMap(now, recorded);
    if Changed(recorded, now) == {} {
      assert forall p :: p in recorded.Keys + now.Keys ==> p !in Changed(recorded, now);
      assert now.Keys == recorded.Keys;
      assert now == recorded;
    }
  }
}
