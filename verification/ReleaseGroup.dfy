/** The release check and the release writer of `plugin_version_guard.py`, for one release group. */
module ReleaseGroup {
  import opened Lists
  import opened SemVer

  /** A manifest as far as its version goes. The version text of a valid one is its parsed version and build part. */
  datatype Manifest =
    | Absent
    | NoVersion
    | Malformed(text: nat)
    | Versioned(version: Version, build: Option<string>)

  ghost predicate Sound(ms: seq<Manifest>) {
    forall i :: 0 <= i < |ms| && ms[i].Versioned? ==> WellFormed(ms[i].version)
  }

  predicate AllVersioned(ms: seq<Manifest>) {
    forall i :: 0 <= i < |ms| ==> ms[i].Versioned?
  }

  /** The version texts are one text. */
  predicate Agree(ms: seq<Manifest>) {
    forall i :: 0 <= i < |ms| ==> ms[i] == ms[0]
  }

  predicate AllAbsent(ms: seq<Manifest>) {
    forall i :: 0 <= i < |ms| ==> ms[i].Absent?
  }

  function Cmp(v: Version, w: Version): (o: Order) {
    Compare(Precedence(v), Precedence(w))
  }

  // ---------------------------------------------------------------- the check

  /** `max(before, key=...)`: the first of the highest. */
  method Highest(ms: seq<Manifest>) returns (k: nat)
    requires ms != [] && AllVersioned(ms) && Sound(ms)
    ensures k < |ms| && forall i :: 0 <= i < |ms| ==> !Below(ms[k].version, ms[i].version)
  {
    k := 0;
    BelowTotal(ms[0].version, ms[0].version);
    for j := 1 to |ms|
      invariant k < j && forall i :: 0 <= i < j ==> !Below(ms[k].version, ms[i].version)
    {
      PrecedenceAgrees(ms[j].version, ms[k].version);
      if Cmp(ms[j].version, ms[k].version) == Greater {
        forall i | 0 <= i <= j
          ensures !Below(ms[j].version, ms[i].version)
        {
          if Below(ms[j].version, ms[i].version) {
            BelowTotal(ms[j].version, ms[i].version);
            BelowTransitive(ms[k].version, ms[j].version, ms[i].version);
          }
        }
        k := j;
      }
    }
  }

  /** What `_group_check` accepts: nothing shipped, or manifests that agree on a version that is new, or not below
      any base version, or, in a release, above the one base version. */
  ghost predicate Acceptable(shipped: bool, before: seq<Manifest>, after: seq<Manifest>, release: bool)
    requires |before| == |after| > 0
  {
    shipped ==>
      && AllVersioned(after) && Agree(after)
      && (AllAbsent(before)
          || (AllVersioned(before)
              && if release then Agree(before) && Below(before[0].version, after[0].version)
                 else forall i :: 0 <= i < |before| ==> !Below(after[0].version, before[i].version)))
  }

  /** `_group_check`. */
  method GroupCheck(shipped: bool, before: seq<Manifest>, after: seq<Manifest>, release: bool) returns (passed: bool)
    requires |before| == |after| > 0 && Sound(before) && Sound(after)
    ensures passed <==> Acceptable(shipped, before, after, release)
  {
    if !shipped {
      return true;
    }
    if !AllVersioned(after) || !Agree(after) {
      return false;
    }
    if !AllVersioned(before) {
      return AllAbsent(before);
    }
    assert before[0].Versioned?;
    if !release {
      var k := Highest(before);
      PrecedenceAgrees(after[0].version, before[k].version);
      if Cmp(after[0].version, before[k].version) == Less {
        return false;
      }
      forall i | 0 <= i < |before|
        ensures !Below(after[0].version, before[i].version)
      {
        if Below(after[0].version, before[i].version) {
          BelowTotal(after[0].version, before[k].version);
          if Below(before[k].version, after[0].version) {
            BelowTransitive(before[k].version, after[0].version, before[i].version);
          }
        }
      }
      return true;
    }
    if !Agree(before) {
      return false;
    }
    PrecedenceAgrees(after[0].version, before[0].version);
    return Cmp(after[0].version, before[0].version) == Greater;
  }

  // ---------------------------------------------------------------- the writer

  /** The working tree afterwards, and which manifests were rewritten; or the write failed. */
  datatype Written = Failed | Done(manifests: seq<Manifest>, rewritten: set<nat>)

  function Bumped(v: Version): (m: Manifest) {
    Versioned(Version(v.major, v.minor, v.patch + 1, None), None)
  }

  /** The manifest names the same major and minor number, the next patch number, no prerelease and no build. */
  predicate NextPatch(v: Version, m: Manifest) {
    && m.Versioned? && m.version.major == v.major && m.version.minor == v.minor && m.version.patch - v.patch == 1
    && m.version.prerelease.None? && m.build.None?
  }

  lemma BumpedIsAbove(v: Version)
    requires WellFormed(v)
    ensures WellFormed(Bumped(v).version) && Below(v, Bumped(v).version)
  {
  }

  /** Every manifest is there and has a version field. */
  predicate Settable(current: seq<Manifest>) {
    forall i :: 0 <= i < |current| ==> !current[i].Absent? && !current[i].NoVersion?
  }

  /** The working tree already names one version above the base. */
  ghost predicate Raised(base: Version, current: seq<Manifest>) {
    && current != [] && Agree(current) && current[0].Versioned? && Below(base, current[0].version)
  }

  /** The version part of `write --release` for one group. */
  method WriteGroup(changed: bool, before: seq<Manifest>, current: seq<Manifest>) returns (w: Written)
    requires |before| == |current| > 0 && Sound(before) && Sound(current)
    ensures w.Done? ==> |w.manifests| == |current| && Sound(w.manifests)
    ensures w.Done? ==> forall i: nat :: i in w.rewritten <==> i < |current| && w.manifests[i] != current[i]
    ensures !changed || AllAbsent(before) ==> w == Done(current, {})
    ensures changed && !AllAbsent(before) && w.Done? ==> before[0].Versioned? && Raised(before[0].version, w.manifests)
    ensures changed && !AllAbsent(before) && w.Done? && Raised(before[0].version, current) ==> w == Done(current, {})
    ensures changed && !AllAbsent(before) && w.Done? && !Raised(before[0].version, current) ==>
              forall i :: 0 <= i < |current| ==> NextPatch(before[0].version, w.manifests[i])
    ensures w.Failed? <==> changed && !AllAbsent(before) && !(before[0].Versioned? && Settable(current))
  {
    if !changed || AllAbsent(before) {
      return Done(current, {});
    }
    if !before[0].Versioned? {
      return Failed;
    }
    var base := before[0].version;
    if exists i :: 0 <= i < |current| && current[i].Absent? {
      return Failed;
    }
    if Agree(current) && current[0].Versioned? {
      PrecedenceAgrees(current[0].version, base);
      if Cmp(current[0].version, base) == Greater {
        return Done(current, {});
      }
    }
    BumpedIsAbove(base);
    var manifests, rewritten: set<nat> := current, {};
    for i := 0 to |current|
      invariant |manifests| == |current| && manifests[i..] == current[i..]
      invariant forall k :: 0 <= k < i ==> manifests[k] == Bumped(base)
      invariant forall k: nat :: k in rewritten <==> k < i && manifests[k] != current[k]
      invariant forall k :: 0 <= k < i ==> !current[k].NoVersion?
    {
      if current[i].NoVersion? {
        return Failed;
      }
      assert manifests[i] == manifests[i..][0] == current[i..][0] == current[i];
      if current[i] != Bumped(base) {
        rewritten := rewritten + {i};
      }
      manifests := manifests[i := Bumped(base)];
    }
    return Done(manifests, rewritten);
  }

  /** After a release write, the release check passes exactly for the groups whose base manifests agree; a new
      group passes exactly when its own manifests do. */
  method WriteThenCheck(changed: bool, before: seq<Manifest>, current: seq<Manifest>) returns (w: Written, passed: bool)
    requires |before| == |current| > 0 && Sound(before) && Sound(current)
    ensures w.Done? && changed && !AllAbsent(before) ==> (passed <==> AllVersioned(before) && Agree(before))
    ensures w.Done? && changed && AllAbsent(before) ==> (passed <==> AllVersioned(current) && Agree(current))
    ensures !changed ==> w.Done? && passed
    ensures w.Failed? ==> !passed
  {
    w := WriteGroup(changed, before, current);
    passed := false;
    if w.Done? {
      passed := GroupCheck(changed, before, w.manifests, true);
    }
  }

  /** A second release write over the first one's result rewrites no version. */
  method WriteTwice(changed: bool, before: seq<Manifest>, current: seq<Manifest>)
    returns (first: Written, second: Written)
    requires |before| == |current| > 0 && Sound(before) && Sound(current)
    ensures first.Done? ==> second == Done(first.manifests, {})
  {
    first := WriteGroup(changed, before, current);
    second := Failed;
    if first.Done? {
      second := WriteGroup(changed, before, first.manifests);
    }
  }

  /** A group split at its base, 1.0.0 beside 1.1.0: the writer leaves 1.0.1 everywhere, which the check refuses. */
  method SplitBaseIsRefused() returns (before: seq<Manifest>, w: Written, passed: bool)
    ensures before == [Versioned(Version(1, 0, 0, None), None), Versioned(Version(1, 1, 0, None), None)]
    ensures w.Done? && w.manifests == [Versioned(Version(1, 0, 1, None), None), Versioned(Version(1, 0, 1, None), None)]
    ensures !passed && Below(w.manifests[0].version, before[1].version)
  {
    before := [Versioned(Version(1, 0, 0, None), None), Versioned(Version(1, 1, 0, None), None)];
    assert before[0] != before[1];
    w := WriteGroup(true, before, before);
    passed := GroupCheck(true, before, w.manifests, true);
  }
}
