/**
 Reading the session records of a directory back as one chain, from whatever order
 they are listed in.
 */
module SessionChain {
  import opened Common
  import opened Sessions

  ghost predicate Injective(digest: Session -> nat) { forall a, b :: digest(a) == digest(b) ==> a == b }

  /** A path through exactly the given records. */
  ghost predicate IsChainOf(c: seq<Session>, files: seq<Session>, digest: Session -> nat) {
    Path(c, digest) && multiset(c) == multiset(files)
  }

  ghost predicate Distinct(s: seq<Session>) { forall i, j :: 0 <= i < j < |s| ==> s[i] != s[j] }

  // ---- lists without repetition

  lemma SameElements(c: seq<Session>, files: seq<Session>, x: Session)
    requires multiset(c) == multiset(files)
    ensures x in c <==> x in files
  {
    assert x in multiset(c) <==> x in c;
    assert x in multiset(files) <==> x in files;
  }

  lemma {:induction false} OnlyOnce(s: seq<Session>, x: Session)
    requires Distinct(s)
    ensures multiset(s)[x] <= 1
    decreases |s|
  {
    if s != [] {
      assert s == [s[0]] + s[1..];
      OnlyOnce(s[1..], x);
      if x == s[0] {
        assert x !in s[1..];
        assert x !in multiset(s[1..]);
      }
    }
  }

  lemma TwiceCounts(s: seq<Session>, i: nat, j: nat)
    requires i < j < |s| && s[i] == s[j]
    ensures multiset(s)[s[i]] >= 2
  {
    assert s == s[..i] + [s[i]] + s[i + 1..j] + [s[j]] + s[j + 1..];
  }

  lemma {:induction false} DistinctPermutation(a: seq<Session>, b: seq<Session>)
    requires Distinct(a) && |a| == |b| && forall x :: x in a ==> x in b
    ensures multiset(a) == multiset(b)
    decreases |a|
  {
    if a != [] {
      assert a[0] in b;
      var k :| 0 <= k < |b| && b[k] == a[0];
      var rest := b[..k] + b[k + 1..];
      forall x | x in a[1..]
        ensures x in rest
      {
        assert x in a && x != a[0];
        var m :| 0 <= m < |b| && b[m] == x;
        assert rest[if m < k then m else m - 1] == x;
      }
      DistinctPermutation(a[1..], rest);
      assert b == b[..k] + [b[k]] + b[k + 1..];
      assert a == [a[0]] + a[1..];
    }
  }

  lemma {:induction false} DistinctFits(a: seq<Session>, b: seq<Session>)
    requires Distinct(a) && forall x :: x in a ==> x in b
    ensures |a| <= |b|
    decreases |a|
  {
    if a != [] {
      assert a[0] in b;
      var k :| 0 <= k < |b| && b[k] == a[0];
      var rest := b[..k] + b[k + 1..];
      forall x | x in a[1..]
        ensures x in rest
      {
        assert x in a && x != a[0];
        var m :| 0 <= m < |b| && b[m] == x;
        assert rest[if m < k then m else m - 1] == x;
      }
      DistinctFits(a[1..], rest);
    }
  }

  lemma PathIsDistinct(c: seq<Session>, digest: Session -> nat)
    requires Path(c, digest)
    ensures Distinct(c)
  {
    hide Checked;
  }

  lemma ChainIsDistinct(c: seq<Session>, files: seq<Session>, digest: Session -> nat)
    requires IsChainOf(c, files, digest)
    ensures Distinct(files)
  {
    hide Path;
    PathIsDistinct(c, digest);
    forall i, j | 0 <= i < j < |files|
      ensures files[i] != files[j]
    {
      OnlyOnce(c, files[i]);
      if files[i] == files[j] { TwiceCounts(files, i, j); }
    }
  }

  // ---- why a directory is refused

  lemma PlaceOf(c: seq<Session>, files: seq<Session>, digest: Session -> nat, f: Session) returns (k: nat)
    requires IsChainOf(c, files, digest) && f in files
    ensures k < |c| && c[k] == f && Checked(f) && (f.previous.None? <==> k == 0)
    ensures k > 0 ==> f.previous == Some(digest(c[k - 1])) && f.startedAt > LastEntry(c[k - 1]) && c[k - 1] in files
  {
    hide Checked, LastEntry;
    SameElements(c, files, f);
    k :| 0 <= k < |c| && c[k] == f;
    if k > 0 { SameElements(c, files, c[k - 1]); }
  }

  /** A record that follows another in a path is its only follower. */
  lemma OneFollower(c: seq<Session>, files: seq<Session>, digest: Session -> nat, f: Session, g: Session)
    requires Injective(digest) && IsChainOf(c, files, digest) && f in files && g in files
    requires f.previous.Some? && f.previous == g.previous
    ensures f == g
  {
    hide Path;
    var j := PlaceOf(c, files, digest, f);
    var k := PlaceOf(c, files, digest, g);
    PathIsDistinct(c, digest);
    assert c[j - 1] == c[k - 1];
  }

  lemma OneRoot(c: seq<Session>, files: seq<Session>, digest: Session -> nat, f: Session, g: Session)
    requires IsChainOf(c, files, digest) && f in files && g in files && f.previous.None? && g.previous.None?
    ensures f == g
  {
    hide Path;
    var j := PlaceOf(c, files, digest, f);
    var k := PlaceOf(c, files, digest, g);
  }

  lemma ParentIsThere(c: seq<Session>, files: seq<Session>, digest: Session -> nat, f: Session)
    requires IsChainOf(c, files, digest) && f in files && f.previous.Some?
    ensures exists g :: g in files && digest(g) == f.previous.value
  {
    hide Path;
    var k := PlaceOf(c, files, digest, f);
    assert digest(c[k - 1]) == f.previous.value;
  }

  /** No path goes through exactly these records. */
  ghost predicate NoChain(files: seq<Session>, digest: Session -> nat) { forall c :: !IsChainOf(c, files, digest) }

  lemma UncheckedRefutes(files: seq<Session>, digest: Session -> nat, f: Session)
    requires f in files && !Checked(f)
    ensures NoChain(files, digest)
  {
    hide IsChainOf, Checked;
    forall c
      ensures !IsChainOf(c, files, digest)
    {
      if IsChainOf(c, files, digest) { var k := PlaceOf(c, files, digest, f); }
    }
  }

  lemma RepeatRefutes(files: seq<Session>, digest: Session -> nat)
    requires !Distinct(files)
    ensures NoChain(files, digest)
  {
    hide IsChainOf;
    forall c
      ensures !IsChainOf(c, files, digest)
    {
      if IsChainOf(c, files, digest) { ChainIsDistinct(c, files, digest); }
    }
  }

  lemma RootsRefute(files: seq<Session>, digest: Session -> nat, first: seq<Session>)
    requires files != [] && RootsOf(first, files) && Distinct(first) && |first| != 1
    ensures NoChain(files, digest)
  {
    hide IsChainOf, Path;
    forall c
      ensures !IsChainOf(c, files, digest)
    {
      if IsChainOf(c, files, digest) {
        if |first| == 0 {
          RootIsThere(c, files, digest);
        } else {
          OneRoot(c, files, digest, first[0], first[1]);
        }
      }
    }
  }

  lemma RootIsThere(c: seq<Session>, files: seq<Session>, digest: Session -> nat)
    requires IsChainOf(c, files, digest) && files != []
    ensures c != [] && c[0] in files && c[0].previous.None?
  {
    hide Checked;
    SameElements(c, files, files[0]);
    SameElements(c, files, c[0]);
  }

  lemma OrphanRefutes(files: seq<Session>, digest: Session -> nat, f: Session)
    requires f in files && f.previous.Some? && forall g :: g in files ==> digest(g) != f.previous.value
    ensures NoChain(files, digest)
  {
    hide IsChainOf;
    forall c
      ensures !IsChainOf(c, files, digest)
    {
      if IsChainOf(c, files, digest) { ParentIsThere(c, files, digest, f); }
    }
  }

  lemma ForkRefutes(files: seq<Session>, digest: Session -> nat, f: Session, g: Session)
    requires Injective(digest) && f in files && g in files && f != g && f.previous.Some? && f.previous == g.previous
    ensures NoChain(files, digest)
  {
    hide IsChainOf;
    forall c
      ensures !IsChainOf(c, files, digest)
    {
      if IsChainOf(c, files, digest) { OneFollower(c, files, digest, f, g); }
    }
  }

  // ---- the dictionaries

  ghost predicate LinksOf(links: map<nat, Session>, files: seq<Session>, digest: Session -> nat) {
    && (forall f :: f in files ==> digest(f) in links && links[digest(f)] == f)
    && (forall d :: d in links ==> links[d] in files && digest(links[d]) == d)
  }

  method CollectLinks(files: seq<Session>, digest: Session -> nat) returns (r: Option<map<nat, Session>>)
    requires Injective(digest)
    ensures r.Some? ==> Distinct(files) && (forall f :: f in files ==> Checked(f)) && LinksOf(r.value, files, digest)
    ensures r.None? ==> NoChain(files, digest)
  {
    hide IsChainOf, Checked;
    var links: map<nat, Session> := map[];
    for i := 0 to |files|
      invariant Distinct(files[..i]) && LinksOf(links, files[..i], digest)
      invariant forall k :: 0 <= k < i ==> Checked(files[k])
    {
      var f := files[i];
      if !Checked(f) {
        UncheckedRefutes(files, digest, f);
        return None;
      }
      assert files[..i + 1] == files[..i] + [f];
      if digest(f) in links {
        assert f in files[..i];
        RepeatRefutes(files, digest);
        return None;
      }
      assert f !in files[..i];
      links := links[digest(f) := f];
    }
    assert files[..|files|] == files;
    return Some(links);
  }

  ghost predicate RootsOf(first: seq<Session>, files: seq<Session>) {
    forall f :: f in first <==> f in files && f.previous.None?
  }

  method CollectRoots(files: seq<Session>) returns (first: seq<Session>)
    requires Distinct(files)
    ensures RootsOf(first, files) && Distinct(first)
  {
    first := [];
    for i := 0 to |files|
      invariant RootsOf(first, files[..i]) && Distinct(first)
    {
      assert files[..i + 1] == files[..i] + [files[i]];
      assert files[i] !in files[..i];
      if files[i].previous.None? { first := first + [files[i]]; }
    }
    assert files[..|files|] == files;
  }

  ghost predicate ChildrenOf(child: map<nat, Session>, files: seq<Session>) {
    && (forall f :: f in files && f.previous.Some? ==> f.previous.value in child && child[f.previous.value] == f)
    && (forall d :: d in child ==> child[d] in files && child[d].previous == Some(d))
  }

  lemma ChildrenGrow(child: map<nat, Session>, files: seq<Session>, f: Session)
    requires ChildrenOf(child, files)
    ensures f.previous.None? ==> ChildrenOf(child, files + [f])
    ensures f.previous.Some? && f.previous.value !in child ==> ChildrenOf(child[f.previous.value := f], files + [f])
  {
  }

  method CollectChildren(files: seq<Session>, links: map<nat, Session>, digest: Session -> nat)
    returns (r: Option<map<nat, Session>>)
    requires Injective(digest) && Distinct(files) && LinksOf(links, files, digest)
    ensures r.Some? ==> ChildrenOf(r.value, files)
    ensures r.None? ==> NoChain(files, digest)
  {
    hide IsChainOf;
    var child: map<nat, Session> := map[];
    for i := 0 to |files|
      invariant ChildrenOf(child, files[..i])
    {
      var f := files[i];
      assert files[..i + 1] == files[..i] + [f];
      ChildrenGrow(child, files[..i], f);
      if f.previous.Some? {
        var parent := f.previous.value;
        if parent !in links {
          OrphanRefutes(files, digest, f);
          return None;
        }
        if parent in child {
          assert child[parent] in files[..i];
          ForkRefutes(files, digest, f, child[parent]);
          return None;
        }
        child := child[parent := f];
      }
    }
    assert files[..|files|] == files;
    return Some(child);
  }

  // ---- following the chain

  /** Every path through these records begins with this one. */
  ghost predicate Forced(chain: seq<Session>, files: seq<Session>, digest: Session -> nat) {
    forall c :: IsChainOf(c, files, digest) ==> chain <= c
  }

  ghost predicate Following(chain: seq<Session>, files: seq<Session>, digest: Session -> nat) {
    Path(chain, digest) && chain != [] && (forall x :: x in chain ==> x in files) && Forced(chain, files, digest)
  }

  lemma RootForced(root: Session, files: seq<Session>, digest: Session -> nat)
    requires root in files && root.previous.None? && Checked(root)
    ensures Following([root], files, digest)
  {
    hide Checked;
    forall c | IsChainOf(c, files, digest)
      ensures [root] <= c
    {
      var k := PlaceOf(c, files, digest, root);
    }
  }

  /** The record after the last of a forced beginning is the one that names it. */
  lemma NextIs(c: seq<Session>, chain: seq<Session>, files: seq<Session>, digest: Session -> nat, link: Session)
    requires Injective(digest) && IsChainOf(c, files, digest) && chain != [] && chain <= c
    requires link in files && link.previous == Some(digest(chain[|chain| - 1]))
    ensures |chain| < |c| && c[|chain|] == link
  {
    hide Path;
    var k := PlaceOf(c, files, digest, link);
    PathIsDistinct(c, digest);
    assert c[k - 1] == chain[|chain| - 1] == c[|chain| - 1];
  }

  lemma Forces(chain: seq<Session>, files: seq<Session>, digest: Session -> nat, link: Session)
    requires Injective(digest) && chain != [] && Forced(chain, files, digest)
    requires link in files && link.previous == Some(digest(chain[|chain| - 1]))
    ensures Forced(chain + [link], files, digest)
  {
    hide IsChainOf;
    forall c | IsChainOf(c, files, digest)
      ensures chain + [link] <= c
    {
      NextIs(c, chain, files, digest, link);
    }
  }

  /** A link that does not fit spoils every path, since each would have to take it. */
  lemma MisfitRefutes(chain: seq<Session>, files: seq<Session>, digest: Session -> nat, link: Session)
    requires Injective(digest) && Following(chain, files, digest)
    requires link in files && link.previous == Some(digest(chain[|chain| - 1]))
    requires link.startedAt <= LastEntry(chain[|chain| - 1]) || link.name in Names(chain)
    ensures NoChain(files, digest)
  {
    hide IsChainOf, LastEntry, Path;
    forall c
      ensures !IsChainOf(c, files, digest)
    {
      if IsChainOf(c, files, digest) {
        NextIs(c, chain, files, digest, link);
        assert c[|chain| - 1] == chain[|chain| - 1] && forall i :: 0 <= i < |chain| ==> chain[i] == c[i];
        NextFits(c, digest, |chain|, files);
      }
    }
  }

  lemma NextFits(c: seq<Session>, digest: Session -> nat, n: nat, files: seq<Session>)
    requires IsChainOf(c, files, digest) && 0 < n < |c|
    ensures c[n].startedAt > LastEntry(c[n - 1]) && forall i :: 0 <= i < n ==> c[i].name != c[n].name
  {
    hide Checked, LastEntry;
  }

  /** When the beginning goes no further and is too short, there is no path. */
  lemma ShortRefutes(chain: seq<Session>, files: seq<Session>, digest: Session -> nat, child: map<nat, Session>)
    requires Injective(digest) && Following(chain, files, digest) && ChildrenOf(child, files)
    requires digest(chain[|chain| - 1]) !in child && |chain| != |files|
    ensures NoChain(files, digest)
  {
    hide IsChainOf, Path;
    forall c
      ensures !IsChainOf(c, files, digest)
    {
      if IsChainOf(c, files, digest) {
        ChainLength(c, files, digest);
        assert c[|chain| - 1] == chain[|chain| - 1];
        NamesLast(c, files, digest, |chain|);
      }
    }
  }

  lemma ChainLength(c: seq<Session>, files: seq<Session>, digest: Session -> nat)
    requires IsChainOf(c, files, digest)
    ensures |c| == |files|
  {
    assert |multiset(c)| == |c| && |multiset(files)| == |files|;
  }

  lemma NamesLast(c: seq<Session>, files: seq<Session>, digest: Session -> nat, n: nat)
    requires IsChainOf(c, files, digest) && 0 < n <= |c|
    ensures n < |c| ==> c[n] in files && c[n].previous == Some(digest(c[n - 1]))
  {
    hide Checked, LastEntry;
    if n < |c| { SameElements(c, files, c[n]); }
  }

  /** Follows the chain from its root to its end. */
  method Follow(root: Session, files: seq<Session>, child: map<nat, Session>, digest: Session -> nat)
    returns (r: Option<seq<Session>>)
    requires Injective(digest) && ChildrenOf(child, files) && root in files && root.previous.None?
    requires forall f :: f in files ==> Checked(f)
    ensures r.Some? ==> Following(r.value, files, digest) && digest(r.value[|r.value| - 1]) !in child
    ensures r.None? ==> NoChain(files, digest)
  {
    hide IsChainOf, Checked, LastEntry, Path;
    var chain := [root];
    var names := {root.name};
    RootForced(root, files, digest);
    assert Names([root]) == {root.name} by {
      NamesGrow([], root);
      assert [] + [root] == [root];
    }
    while digest(chain[|chain| - 1]) in child
      invariant Following(chain, files, digest) && names == Names(chain)
      decreases |files| - |chain|
    {
      var link := child[digest(chain[|chain| - 1])];
      if link.startedAt <= LastEntry(chain[|chain| - 1]) || link.name in names {
        MisfitRefutes(chain, files, digest, link);
        return None;
      }
      PathExtends(chain, link, digest);
      Forces(chain, files, digest, link);
      NamesGrow(chain, link);
      chain := chain + [link];
      names := names + {link.name};
      PathIsDistinct(chain, digest);
      DistinctFits(chain, files);
    }
    return Some(chain);
  }

  lemma NamesGrow(chain: seq<Session>, link: Session)
    ensures Names(chain + [link]) == Names(chain) + {link.name}
  {
    var after := chain + [link];
    assert forall i :: 0 <= i < |chain| ==> after[i] == chain[i];
    forall n
      ensures n in Names(after) <==> n in Names(chain) + {link.name}
    {
      if n in Names(chain) {
        var i :| 0 <= i < |chain| && chain[i].name == n;
        assert after[i].name == n;
      }
      if n == link.name { assert after[|chain|].name == n; }
    }
  }

  /** Reads the records back. The answer is the one path that goes through exactly
      these records, and there is an answer exactly when there is such a path. */
  method ReadChain(files: seq<Session>, digest: Session -> nat) returns (r: Option<seq<Session>>)
    requires Injective(digest)
    ensures r.Some? ==> IsChainOf(r.value, files, digest) && Forced(r.value, files, digest)
    ensures r.None? ==> NoChain(files, digest)
  {
    hide IsChainOf, Path, NoChain, Forced, ChildrenOf, LinksOf, Checked, Distinct;
    var links := CollectLinks(files, digest);
    if links.None? { return None; }
    if files == [] {
      NothingIsChain(digest);
      return Some([]);
    }
    var first := CollectRoots(files);
    if |first| != 1 {
      RootsRefute(files, digest, first);
      return None;
    }
    var child := CollectChildren(files, links.value, digest);
    if child.None? { return None; }
    assert first[0] in first;
    var chain := Follow(first[0], files, child.value, digest);
    if chain.None? { return None; }
    if |chain.value| != |files| {
      ShortRefutes(chain.value, files, digest, child.value);
      return None;
    }
    WholeChain(chain.value, files, digest);
    return chain;
  }

  lemma NothingIsChain(digest: Session -> nat)
    ensures IsChainOf([], [], digest) && Forced([], [], digest)
  {
  }

  lemma WholeChain(chain: seq<Session>, files: seq<Session>, digest: Session -> nat)
    requires Following(chain, files, digest) && |chain| == |files|
    ensures IsChainOf(chain, files, digest)
  {
    hide Path;
    PathIsDistinct(chain, digest);
    DistinctPermutation(chain, files);
  }

  /** So reading the records of any run back, in whatever order they are listed,
      gives the chain as the commands built it. */
  lemma RunIsReadBack(commands: seq<Command>, digest: Session -> nat, files: seq<Session>)
    requires multiset(files) == multiset(Run(EMPTY, commands, digest).chain)
    ensures IsChainOf(Run(EMPTY, commands, digest).chain, files, digest)
    ensures forall c :: IsChainOf(c, files, digest) && Forced(c, files, digest) ==>
            c == Run(EMPTY, commands, digest).chain
  {
    hide Run, Path;
    RunIsOnePath(commands, digest);
    var chain := Run(EMPTY, commands, digest).chain;
    assert IsChainOf(chain, files, digest);
    forall c | IsChainOf(c, files, digest) && Forced(c, files, digest)
      ensures c == chain
    {
      ChainLength(c, files, digest);
      ChainLength(chain, files, digest);
      assert c <= chain;
    }
  }
}
