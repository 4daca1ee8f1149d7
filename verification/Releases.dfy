/** Release numbers: a calendar day and a suffix, of which 01 is the security
    preview that counts as the release of the same day. */
module Releases {
  import opened Common

  datatype Release = Release(base: nat, preview: bool)

  function Number(r: Release): nat { r.base + if r.preview then 1 else 0 }

  predicate Leap(y: nat) { y % 4 == 0 && (y % 100 != 0 || y % 400 == 0) }

  function DaysIn(y: nat, m: nat): nat {
    if m == 2 then (if Leap(y) then 29 else 28) else if m == 4 || m == 6 || m == 9 || m == 11 then 30 else 31
  }

  predicate Calendar(y: nat, m: nat, d: nat) { 1 <= y <= 9999 && 1 <= m <= 12 && 1 <= d <= DaysIn(y, m) }

  /** A ten digit number, as year, month, day and suffix. */
  function ParseRelease(n: nat, allowPreview: bool): Option<Release> {
    if n >= 10_000_000_000 || !Calendar(n / 1000000, n / 10000 % 100, n / 100 % 100) then None
    else if n % 100 == 0 then Some(Release(n, false))
    else if n % 100 == 1 && allowPreview then Some(Release(n - 1, true))
    else None
  }

  lemma ParseKeepsNumber(n: nat, allowPreview: bool)
    requires ParseRelease(n, allowPreview).Some?
    ensures var r := ParseRelease(n, allowPreview).value;
            && Number(r) == n && r.base % 100 == 0 && (r.preview ==> allowPreview)
            && ParseRelease(Number(r), true) == Some(r) && ParseRelease(r.base, false) == Some(Release(r.base, false))
  {
    hide Calendar;
    var day := n / 100;
    assert n / 1000000 == day / 10000 && n / 10000 % 100 == day / 100 % 100;
    if n % 100 == 1 {
      assert (n - 1) / 100 == day;
      assert (n - 1) / 1000000 == day / 10000 && (n - 1) / 10000 == day / 100;
    }
  }

  predicate Newer(a: Release, b: Release) { a.base > b.base }

  predicate SameRelease(a: Release, b: Release) { a.base == b.base }

  /** The first of those with the greatest base. */
  ghost predicate IsNewest(releases: seq<Release>, k: nat) {
    && k < |releases|
    && (forall i :: 0 <= i < |releases| ==> releases[i].base <= releases[k].base)
    && (forall i :: 0 <= i < k ==> releases[i].base < releases[k].base)
  }

  function NewestIndex(releases: seq<Release>): (k: nat)
    requires releases != []
    ensures IsNewest(releases, k)
  {
    if |releases| == 1 then 0
    else
      var n := |releases| - 1;
      var k := NewestIndex(releases[..n]);
      assert forall i :: 0 <= i < n ==> releases[..n][i] == releases[i];
      if Newer(releases[n], releases[k]) then n else k
  }

  function Newest(releases: seq<Release>): (r: Release)
    requires releases != []
    ensures r in releases && forall x :: x in releases ==> x.base <= r.base
  {
    releases[NewestIndex(releases)]
  }

  method FindNewest(releases: seq<Release>) returns (best: Option<Release>)
    ensures best == if releases == [] then None else Some(Newest(releases))
  {
    best := None;
    for i := 0 to |releases|
      invariant best == if i == 0 then None else Some(Newest(releases[..i]))
    {
      assert releases[..i + 1][..i] == releases[..i];
      if best.None? || Newer(releases[i], best.value) { best := Some(releases[i]); }
    }
    assert releases[..|releases|] == releases;
  }

  // ---- releases in the order of their numbers, each once

  ghost predicate Ordered(rs: seq<Release>) { forall i, j :: 0 <= i < j < |rs| ==> Number(rs[i]) <= Number(rs[j]) }

  function Insert(rs: seq<Release>, r: Release): seq<Release> {
    if rs == [] || Number(r) < Number(rs[0]) then [r] + rs
    else if r == rs[0] then rs
    else [rs[0]] + Insert(rs[1..], r)
  }

  function Sorted(rs: seq<Release>): seq<Release> {
    if rs == [] then [] else Insert(Sorted(rs[..|rs| - 1]), rs[|rs| - 1])
  }

  lemma {:induction false} InsertHas(rs: seq<Release>, r: Release, x: Release)
    ensures x in Insert(rs, r) <==> x in rs || x == r
    decreases |rs|
  {
    if rs != [] {
      InsertHas(rs[1..], r, x);
      assert rs == [rs[0]] + rs[1..];
    }
  }

  lemma {:induction false} InsertOrdered(rs: seq<Release>, r: Release)
    requires Ordered(rs)
    ensures Ordered(Insert(rs, r))
    decreases |rs|
  {
    if rs != [] && !(Number(r) < Number(rs[0])) && r != rs[0] {
      InsertOrdered(rs[1..], r);
      forall x | x in Insert(rs[1..], r)
        ensures Number(rs[0]) <= Number(x)
      {
        InsertHas(rs[1..], r, x);
      }
      var rest := Insert(rs[1..], r);
      assert forall i :: 0 <= i < |rest| ==> rest[i] in rest;
    }
  }

  /** Sorting keeps exactly the releases given. */
  lemma {:induction false} SortedHas(rs: seq<Release>, x: Release)
    ensures x in Sorted(rs) <==> x in rs
    decreases |rs|
  {
    if rs != [] {
      var n := |rs| - 1;
      SortedHas(rs[..n], x);
      InsertHas(Sorted(rs[..n]), rs[n], x);
      assert rs == rs[..n] + [rs[n]];
    }
  }

  lemma {:induction false} SortedOrdered(rs: seq<Release>)
    ensures Ordered(Sorted(rs))
    decreases |rs|
  {
    if rs != [] {
      SortedOrdered(rs[..|rs| - 1]);
      InsertOrdered(Sorted(rs[..|rs| - 1]), rs[|rs| - 1]);
    }
  }
}
