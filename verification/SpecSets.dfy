/** Choosing the latest sandbox symbol spec set by its versioned identifier. */
module SpecSets {
  import opened Options

  /** Major, minor and patch numbers. */
  type Version = v: seq<nat> | |v| == 3 witness [0, 0, 0]

  /** The version is None when the identifier does not parse. */
  datatype SpecSet = SpecSet(id: string, version: Option<Version>)

  /** Numeric order, so that 1.10 comes after 1.9. */
  predicate Later(a: Version, b: Version) {
    a[0] > b[0] || (a[0] == b[0] && (a[1] > b[1] || (a[1] == b[1] && a[2] > b[2])))
  }

  /** The first part in which two versions differ decides. */
  lemma FirstDifferenceDecides(a: Version, b: Version)
    ensures Later(a, b) <==> exists i :: 0 <= i < 3 && a[..i] == b[..i] && a[i] > b[i]
  {
    assert a[..0] == b[..0];
    assert a[..1] == b[..1] <==> a[0] == b[0];
    assert a[..2] == b[..2] <==> a[0] == b[0] && a[1] == b[1];
    if i :| 0 <= i < 3 && a[..i] == b[..i] && a[i] > b[i] {
      assert i == 0 || i == 1 || i == 2;
    }
  }

  /** The first difference, looked for part by part, tells the order. */
  method CompareVersions(left: Version, right: Version) returns (difference: int)
    ensures difference > 0 <==> Later(left, right)
    ensures difference < 0 <==> Later(right, left)
    ensures difference == 0 <==> left == right
  {
    var index := 0;
    while index < |left|
      invariant 0 <= index <= 3
      invariant forall i :: 0 <= i < index ==> left[i] == right[i]
    {
      difference := left[index] as int - right[index] as int;
      if difference != 0 { return; }
      index := index + 1;
    }
    assert left == right;
    return 0;
  }

  /** Keeps the latest so far unless the next is later; comparing parses both, and
      fails if either does not parse. */
  function Fold(cs: seq<SpecSet>): Option<SpecSet> {
    if cs == [] then None
    else if |cs| == 1 then Some(cs[0])
    else
      var latest, next := Fold(cs[..|cs| - 1]), cs[|cs| - 1];
      if latest.None? || latest.value.version.None? || next.version.None? then None
      else if Later(next.version.value, latest.value.version.value) then Some(next)
      else latest
  }

  method LoadLatest(candidates: seq<SpecSet>) returns (latest: Option<SpecSet>)
    ensures latest == Fold(candidates)
  {
    if candidates == [] { return None; }
    latest := Some(candidates[0]);
    assert candidates[..1] == [candidates[0]];
    for i := 1 to |candidates|
      invariant latest.Some? && latest == Fold(candidates[..i])
    {
      assert candidates[..i + 1][..i] == candidates[..i];
      if latest.value.version.None? || candidates[i].version.None? {
        FoldFails(candidates, i + 1);
        return None;
      }
      var difference := CompareVersions(candidates[i].version.value, latest.value.version.value);
      if difference > 0 {
        latest := Some(candidates[i]);
      }
    }
    assert candidates[..|candidates|] == candidates;
  }

  lemma {:induction false} FoldFails(cs: seq<SpecSet>, i: nat)
    requires 1 < i <= |cs| && Fold(cs[..i]) == None
    ensures Fold(cs) == None
    decreases |cs|
  {
    if i < |cs| {
      assert cs[..|cs| - 1][..i] == cs[..i];
      FoldFails(cs[..|cs| - 1], i);
    } else {
      assert cs[..i] == cs;
    }
  }

  ghost predicate AllParse(cs: seq<SpecSet>) {
    forall i :: 0 <= i < |cs| ==> cs[i].version.Some?
  }

  /** `k` is the first candidate that no other is later than. */
  ghost predicate IsLatest(cs: seq<SpecSet>, k: int) {
    && AllParse(cs)
    && 0 <= k < |cs|
    && (forall i :: 0 <= i < |cs| ==> !Later(cs[i].version.value, cs[k].version.value))
    && (forall i :: 0 <= i < k ==> Later(cs[k].version.value, cs[i].version.value))
  }

  /** Choosing fails on an empty list, and on an identifier that does not parse
      unless it is alone, since a lone candidate is taken unread.  Otherwise it
      yields the latest version in numeric order, the first listed among equals. */
  lemma {:induction false} FoldIsLatest(cs: seq<SpecSet>)
    ensures Fold(cs).Some? <==> |cs| == 1 || (cs != [] && AllParse(cs))
    ensures |cs| == 1 ==> Fold(cs) == Some(cs[0])
    ensures Fold(cs).Some? && AllParse(cs) ==> exists k :: IsLatest(cs, k) && Fold(cs) == Some(cs[k])
  {
    if |cs| == 1 {
      assert AllParse(cs) ==> IsLatest(cs, 0);
    } else if |cs| > 1 {
      var n := |cs| - 1;
      FoldIsLatest(cs[..n]);
      assert AllParse(cs) <==> AllParse(cs[..n]) && cs[n].version.Some?;
      if Fold(cs).Some? {
        var k :| IsLatest(cs[..n], k) && Fold(cs[..n]) == Some(cs[..n][k]);
        assert forall i :: 0 <= i < n ==> cs[..n][i] == cs[i];
        var winner := if Later(cs[n].version.value, cs[k].version.value) then n else k;
        assert IsLatest(cs, winner);
      }
    }
  }
}
