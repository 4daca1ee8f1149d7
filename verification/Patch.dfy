/**
 Unified patches: reading their hunks, applying them to a file, taking them back
 out again, and finding the upstream file whether the tree holds it or the
 patched one.
 */
module Patch {
  import opened Common
  import opened Text

  datatype Edit = Keep(text: string) | Del(text: string) | Add(text: string)

  function OldLines(body: seq<Edit>): seq<string> {
    if body == [] then [] else (if body[0].Add? then [] else [body[0].text]) + OldLines(body[1..])
  }

  function NewLines(body: seq<Edit>): seq<string> {
    if body == [] then [] else (if body[0].Del? then [] else [body[0].text]) + NewLines(body[1..])
  }

  datatype Hunk = Hunk(
    oldAt: nat, oldCount: nat, newAt: nat, newCount: nat, oldLines: seq<string>, newLines: seq<string>, body: seq<Edit>)

  /** A hunk holds exactly the lines that its header counts. */
  predicate Counted(h: Hunk) {
    |h.oldLines| == h.oldCount && |h.newLines| == h.newCount && h.oldLines == OldLines(h.body)
      && h.newLines == NewLines(h.body)
  }

  /** Where a hunk starts in the file before: before the line it names, or
      after it when it replaces nothing. */
  function Start(h: Hunk): int { if h.oldCount > 0 then h.oldAt - 1 else h.oldAt }

  /** A slice as Python takes it: cut off at the end. */
  function Slice(lines: seq<string>, from: nat, to: nat): seq<string>
    requires from <= to
  {
    if from >= |lines| then [] else if to >= |lines| then lines[from..] else lines[from..to]
  }

  predicate Stands(lines: seq<string>, h: Hunk, position: nat) {
    Start(h) >= position && Slice(lines, Start(h), Start(h) + |h.oldLines|) == h.oldLines
  }

  lemma StandsLater(lines: seq<string>, h: Hunk, position: nat)
    requires Stands(lines, h, position)
    ensures position <= Start(h)
  {
  }

  /** The rest of the hunks, with the lines before position done and out made of them. */
  function ApplyFrom(lines: seq<string>, hunks: seq<Hunk>, position: nat, out: seq<string>): Option<seq<string>>
    decreases |hunks|
  {
    if hunks == [] then Some(out + (if position >= |lines| then [] else lines[position..]))
    else
      var h := hunks[0];
      if !Stands(lines, h, position) then None
      else
        var kept := out + Slice(lines, position, Start(h));
        if |kept| + (if h.newCount > 0 then 1 else 0) != h.newAt then None
        else ApplyFrom(lines, hunks[1..], Start(h) + |h.oldLines|, kept + h.newLines)
  }

  function Apply(lines: seq<string>, hunks: seq<Hunk>): Option<seq<string>> { ApplyFrom(lines, hunks, 0, []) }

  method ApplyHunks(lines: seq<string>, hunks: seq<Hunk>) returns (r: Option<seq<string>>)
    ensures r == Apply(lines, hunks)
  {
    var out: seq<string> := [];
    var position: nat := 0;
    assert hunks[0..] == hunks;
    for i := 0 to |hunks|
      invariant ApplyFrom(lines, hunks[i..], position, out) == Apply(lines, hunks)
    {
      var h := hunks[i];
      assert hunks[i..][0] == h && hunks[i..][1..] == hunks[i + 1..];
      var start := Start(h);
      if start < position || Slice(lines, start, start + |h.oldLines|) != h.oldLines { return None; }
      out := out + Slice(lines, position, start);
      if |out| + (if h.newCount > 0 then 1 else 0) != h.newAt { return None; }
      out := out + h.newLines;
      position := start + |h.oldLines|;
    }
    return Some(out + (if position >= |lines| then [] else lines[position..]));
  }

  function Flip(e: Edit): Edit {
    match e
    case Keep(t) => Keep(t)
    case Del(t) => Add(t)
    case Add(t) => Del(t)
  }

  function Flipped(body: seq<Edit>): seq<Edit> {
    if body == [] then [] else [Flip(body[0])] + Flipped(body[1..])
  }

  function ReversedHunk(h: Hunk): Hunk {
    Hunk(h.newAt, h.newCount, h.oldAt, h.oldCount, h.newLines, h.oldLines, Flipped(h.body))
  }

  function Reversed(hunks: seq<Hunk>): (r: seq<Hunk>)
    ensures |r| == |hunks| && forall i :: 0 <= i < |r| ==> r[i] == ReversedHunk(hunks[i])
  {
    seq(|hunks|, i requires 0 <= i < |hunks| => ReversedHunk(hunks[i]))
  }

  /** No hunk is placed past the end of the file. */
  predicate Inside(lines: seq<string>, hunks: seq<Hunk>) {
    forall i :: 0 <= i < |hunks| ==> Start(hunks[i]) <= |lines|
  }

  /** What is done is never taken back. */
  lemma {:induction false} ApplyKeeps(lines: seq<string>, hunks: seq<Hunk>, position: nat, out: seq<string>)
    requires ApplyFrom(lines, hunks, position, out).Some?
    ensures out <= ApplyFrom(lines, hunks, position, out).value
    decreases |hunks|
  {
    if hunks != [] {
      var h := hunks[0];
      ApplyKeeps(lines, hunks[1..], Start(h) + |h.oldLines|, out + Slice(lines, position, Start(h)) + h.newLines);
    }
  }

  predicate Placed(h: Hunk, kept: seq<string>) { |kept| + (if h.newCount > 0 then 1 else 0) == h.newAt }

  /** From the patched side a hunk stands where the patch put it. */
  lemma StandsBack(lines: seq<string>, h: Hunk, position: nat, out: seq<string>, r: seq<string>)
    requires Stands(lines, h, position)
    requires var kept := out + Slice(lines, position, Start(h)); Placed(h, kept) && kept + h.newLines <= r
    ensures var b := ReversedHunk(h);
            var kept := out + Slice(lines, position, Start(h));
            && Stands(r, b, |out|) && Start(b) == |kept| && Start(b) + |b.oldLines| == |kept + h.newLines|
            && Slice(r, |out|, Start(b)) == Slice(lines, position, Start(h))
  {
    var b := ReversedHunk(h);
    var kept := out + Slice(lines, position, Start(h));
    var whole := kept + h.newLines;
    assert r[..|whole|] == whole;
    assert Slice(r, Start(b), Start(b) + |b.oldLines|) == h.newLines;
    assert Slice(r, |out|, |kept|) == Slice(lines, position, Start(h));
  }

  /** It leads back to the place it came from, when that is inside the file. */
  lemma LeadsBack(lines: seq<string>, h: Hunk, position: nat)
    requires position <= |lines| && Stands(lines, h, position)
    ensures Start(h) <= |lines| ==>
              && Start(h) + |h.oldLines| <= |lines|
              && lines[..position] + Slice(lines, position, Start(h)) == lines[..Start(h)]
              && lines[..Start(h)] + h.oldLines == lines[..Start(h) + |h.oldLines|]
              && Placed(ReversedHunk(h), lines[..Start(h)])
    ensures Start(h) > |lines| ==>
              lines[..position] + Slice(lines, position, Start(h)) == lines && !Placed(ReversedHunk(h), lines)
  {
  }

  lemma FirstApplied(lines: seq<string>, hunks: seq<Hunk>, position: nat, out: seq<string>)
    requires hunks != []
    ensures ApplyFrom(lines, hunks, position, out) ==
            var h := hunks[0];
            if !Stands(lines, h, position) then None
            else
              var kept := out + Slice(lines, position, Start(h));
              if !Placed(h, kept) then None
              else ApplyFrom(lines, hunks[1..], Start(h) + |h.oldLines|, kept + h.newLines)
  {
  }

  lemma NoneLeft(lines: seq<string>, position: nat, out: seq<string>)
    requires position <= |lines|
    ensures ApplyFrom(lines, [], position, out) == Some(out + lines[position..])
  {
    assert position == |lines| ==> lines[position..] == [];
  }

  /** The hunks taken back in step with their application. */
  lemma {:induction false} BackInStep(lines: seq<string>, hunks: seq<Hunk>, position: nat, out: seq<string>)
    requires position <= |lines| && ApplyFrom(lines, hunks, position, out).Some?
    ensures ApplyFrom(ApplyFrom(lines, hunks, position, out).value, Reversed(hunks), |out|, lines[..position])
            == if Inside(lines, hunks) then Some(lines) else None
    decreases |hunks|
  {
    hide ApplyFrom, Slice;
    var r := ApplyFrom(lines, hunks, position, out).value;
    var back := Reversed(hunks);
    ApplyKeeps(lines, hunks, position, out);
    if hunks == [] {
      NoneLeft(lines, position, out);
      NoneLeft(r, |out|, lines[..position]);
      assert back == [];
      assert r[|out|..] == lines[position..];
      assert lines[..position] + lines[position..] == lines;
    } else {
      var h := hunks[0];
      FirstApplied(lines, hunks, position, out);
      var kept := out + Slice(lines, position, Start(h));
      FirstApplied(r, back, |out|, lines[..position]);
      ApplyKeeps(lines, hunks[1..], Start(h) + |h.oldLines|, kept + h.newLines);
      StandsBack(lines, h, position, out, r);
      LeadsBack(lines, h, position);
      assert back[0] == ReversedHunk(h) && back[1..] == Reversed(hunks[1..]);
      if Start(h) <= |lines| {
        BackInStep(lines, hunks[1..], Start(h) + |h.oldLines|, kept + h.newLines);
        InsideRest(lines, hunks);
      } else {
        assert !Inside(lines, hunks);
      }
    }
  }

  lemma InsideRest(lines: seq<string>, hunks: seq<Hunk>)
    requires hunks != [] && Start(hunks[0]) <= |lines|
    ensures Inside(lines, hunks) <==> Inside(lines, hunks[1..])
  {
    assert forall i :: 0 < i < |hunks| ==> hunks[i] == hunks[1..][i - 1];
    assert forall i :: 0 <= i < |hunks[1..]| ==> hunks[1..][i] == hunks[i + 1];
  }

  /** Hunks that apply can be taken back exactly when none of them is placed past
      the end of the file, and taking them back then gives the file back. */
  lemma ReversalRestores(lines: seq<string>, hunks: seq<Hunk>)
    requires Apply(lines, hunks).Some?
    ensures Apply(Apply(lines, hunks).value, Reversed(hunks)) == if Inside(lines, hunks) then Some(lines) else None
  {
    BackInStep(lines, hunks, 0, []);
    assert lines[..0] == [];
  }

  const LATE := Hunk(5, 0, 2, 1, [], ["b"], [Add("b")])

  /** An insertion past the end applies, and cannot be taken back. */
  lemma PastTheEnd()
    ensures Counted(LATE)
    ensures Apply(["a"], [LATE]) == Some(["a", "b"])
    ensures Apply(["a", "b"], Reversed([LATE])) == None
  {
    var lines, hunks := ["a"], [LATE];
    assert LATE.body[1..] == [];
    assert Slice(lines, 0, 5) == lines[0..] == lines;
    assert [] + Slice(lines, 0, 5) == ["a"];
    FirstApplied(lines, hunks, 0, []);
    assert hunks[1..] == [];
    assert ["a"] + ["b"] == ["a", "b"];
    var done: seq<string> := ["a", "b"];
    assert ApplyFrom(lines, [], 5, done) == Some(done + []);
    assert done + [] == done;
    assert Apply(lines, hunks) == Some(["a", "b"]);
    ReversalRestores(lines, hunks);
    assert Start(hunks[0]) > |lines|;
  }

  // ---- the upstream file, whichever of the two the tree holds

  function JoinLines(lines: seq<string>): string { if lines == [] then "" else Join(lines, '\n') }

  ghost predicate Injective(digest: string -> int) { forall a, b :: digest(a) == digest(b) ==> a == b }

  /** The upstream lines, if the tree's text is one of the two the record pins
      and the patch leads from the one to the other. */
  function Upstream(tree: string, hunks: seq<Hunk>, digest: string -> int, upstream: int,
      adapted: int): Option<seq<string>> {
    var lines := Split(tree, '\n');
    var found :=
      if digest(tree) == upstream then Some(lines)
      else if digest(tree) != adapted then None
      else match Apply(lines, Reversed(hunks))
        case None => None
        case Some(back) => if digest(JoinLines(back)) == upstream then Some(back) else None;
    match found
    case None => None
    case Some(u) =>
      match Apply(u, hunks)
      case None => None
      case Some(a) => if digest(JoinLines(a)) == adapted then Some(u) else None
  }

  method UpstreamLines(tree: string, hunks: seq<Hunk>, digest: string -> int, upstream: int, adapted: int)
    returns (r: Option<seq<string>>)
    ensures r == Upstream(tree, hunks, digest, upstream, adapted)
  {
    var lines := Split(tree, '\n');
    var u := lines;
    if digest(tree) != upstream {
      if digest(tree) != adapted { return None; }
      var back := ApplyHunks(lines, Reversed(hunks));
      if back.None? || digest(JoinLines(back.value)) != upstream { return None; }
      u := back.value;
    }
    var a := ApplyHunks(u, hunks);
    if a.None? || digest(JoinLines(a.value)) != adapted { return None; }
    return Some(u);
  }

  /** Whatever is returned is the text the record pins as upstream, and the patch
      makes the adapted text of it. */
  lemma UpstreamIsPinned(tree: string, hunks: seq<Hunk>, digest: string -> int, before: string, after: string)
    requires Injective(digest) && Upstream(tree, hunks, digest, digest(before), digest(after)).Some?
    ensures var u := Upstream(tree, hunks, digest, digest(before), digest(after)).value;
            && JoinLines(u) == before && (tree == before || tree == after)
            && Apply(u, hunks).Some? && JoinLines(Apply(u, hunks).value) == after
  {
    hide Apply;
    SplitJoins(tree, '\n');
  }

  /** No line of a hunk holds a line break, as lines cut at line breaks never do. */
  ghost predicate Clean(hunks: seq<Hunk>) {
    forall i :: 0 <= i < |hunks| ==> Apart(hunks[i].oldLines, '\n') && Apart(hunks[i].newLines, '\n')
  }

  lemma {:induction false} ApplyApart(lines: seq<string>, hunks: seq<Hunk>, position: nat, out: seq<string>)
    requires Clean(hunks) && Apart(lines, '\n') && Apart(out, '\n') && ApplyFrom(lines, hunks, position, out).Some?
    ensures Apart(ApplyFrom(lines, hunks, position, out).value, '\n')
    decreases |hunks|
  {
    hide ApplyFrom, Slice, Apart, Stands;
    if hunks == [] {
      TailApart(lines, position, out);
    } else {
      var h := hunks[0];
      FirstApplied(lines, hunks, position, out);
      StandsLater(lines, h, position);
      var part := Slice(lines, position, Start(h));
      SliceApart(lines, position, Start(h));
      ApartTogether(out, part);
      ApartTogether(out + part, h.newLines);
      assert forall i :: 0 <= i < |hunks[1..]| ==> hunks[1..][i] == hunks[i + 1];
      ApplyApart(lines, hunks[1..], Start(h) + |h.oldLines|, out + part + h.newLines);
    }
  }

  lemma TailApart(lines: seq<string>, position: nat, out: seq<string>)
    requires Apart(lines, '\n') && Apart(out, '\n')
    ensures ApplyFrom(lines, [], position, out).Some? && Apart(ApplyFrom(lines, [], position, out).value, '\n')
  {
  }

  lemma SliceApart(lines: seq<string>, from: nat, to: nat)
    requires from <= to && Apart(lines, '\n')
    ensures Apart(Slice(lines, from, to), '\n')
  {
  }

  lemma ApartTogether(a: seq<string>, b: seq<string>)
    requires Apart(a, '\n') && Apart(b, '\n')
    ensures Apart(a + b, '\n')
  {
  }

  lemma ReversedClean(hunks: seq<Hunk>)
    requires Clean(hunks)
    ensures Clean(Reversed(hunks))
  {
  }

  /** Lines without line breaks are the only ones that join to their text, but for no lines at all. */
  lemma JoinedFrom(lines: seq<string>, text: string)
    requires Apart(lines, '\n') && JoinLines(lines) == text
    ensures lines == [] || lines == Split(text, '\n')
    ensures lines == [] ==> text == ""
  {
    if lines != [] { JoinSplits(lines, '\n'); }
  }

  lemma TextJoins(text: string)
    ensures JoinLines(Split(text, '\n')) == text
  {
    SplitJoins(text, '\n');
  }

  lemma {:induction false} JoinMore(lines: seq<string>, last: string)
    requires lines != []
    ensures JoinLines(lines + [last]) == JoinLines(lines) + ['\n'] + last
    decreases |lines|
  {
    var all := lines + [last];
    assert Join(all, '\n') == all[0] + ['\n'] + Join(all[1..], '\n');
    if |lines| == 1 {
      assert all[1..] == [last];
    } else {
      assert all[1..] == lines[1..] + [last];
      JoinMore(lines[1..], last);
    }
  }

  /** One hunk that leaves nothing, from both sides. */
  lemma EmptyingHunk(lines: seq<string>, h: Hunk, position: nat)
    requires position <= |lines| && Stands(lines, h, position) && Slice(lines, position, Start(h)) == [] == h.newLines
    requires Placed(h, [])
    ensures var b := ReversedHunk(h);
            && Start(b) == 0 && Stands([""], b, 0) && Slice([""], 0, 0) == []
            && (Placed(b, lines[..position]) <==> Start(h) <= |lines|)
            && (Start(h) <= |lines| ==>
                  && Start(h) + |h.oldLines| <= |lines|
                  && lines[..position] + h.oldLines == lines[..Start(h) + |h.oldLines|])
  {
    LeadsBack(lines, h, position);
    assert Slice([""], 0, 0) == [""][0..0] == [];
  }

  /** A patch that leaves no line, taken back out of the empty text: that is one
      empty line, which stays behind the lines that come back. */
  lemma {:induction false} EmptiedBack(lines: seq<string>, hunks: seq<Hunk>, position: nat)
    requires position <= |lines| && ApplyFrom(lines, hunks, position, []) == Some([])
    ensures ApplyFrom([""], Reversed(hunks), 0, lines[..position]) ==
            if Inside(lines, hunks) then Some(lines + [""]) else None
    decreases |hunks|
  {
    hide ApplyFrom, Slice, Stands;
    var back := Reversed(hunks);
    if hunks == [] {
      NoneLeft(lines, position, []);
      NoneLeft([""], 0, lines[..position]);
      assert lines[position..] == [] && lines[..position] == lines;
      assert [""][0..] == [""];
    } else {
      var h := hunks[0];
      FirstApplied(lines, hunks, position, []);
      FirstApplied([""], back, 0, lines[..position]);
      StandsLater(lines, h, position);
      var kept := [] + Slice(lines, position, Start(h));
      ApplyKeeps(lines, hunks[1..], Start(h) + |h.oldLines|, kept + h.newLines);
      assert kept + h.newLines == [];
      EmptyingHunk(lines, h, position);
      assert lines[..position] + [] == lines[..position];
      assert back[0] == ReversedHunk(h) && back[1..] == Reversed(hunks[1..]);
      if Start(h) <= |lines| {
        EmptiedBack(lines, hunks[1..], Start(h) + |h.oldLines|);
        InsideRest(lines, hunks);
      } else {
        assert !Inside(lines, hunks);
      }
    }
  }

  /** The patch leads from the one text to the other. */
  predicate Leads(before: string, after: string, hunks: seq<Hunk>) {
    var a := Apply(Split(before, '\n'), hunks);
    a.Some? && JoinLines(a.value) == after
  }

  /** No hunk lies past the end, and a line is left. */
  predicate Returns(before: string, hunks: seq<Hunk>) {
    var lines := Split(before, '\n');
    Inside(lines, hunks) && Apply(lines, hunks) != Some([])
  }

  /** The patch makes the text of no lines at all, which an empty file never is. */
  predicate MadeOfNothing(before: string, after: string, hunks: seq<Hunk>) {
    before == "" && Inside([], hunks) && Apply([], hunks) == Some(Split(after, '\n'))
  }

  /** What a patch that leads to a text gives back out of it. */
  lemma TakenBack(before: string, after: string, hunks: seq<Hunk>)
    requires Clean(hunks) && Leads(before, after, hunks)
    ensures var back := Apply(Split(after, '\n'), Reversed(hunks));
            if Returns(before, hunks) then back == Some(Split(before, '\n'))
            else back.Some? ==> JoinLines(back.value) != before
  {
    hide ApplyFrom, Inside, Split, Join;
    var lines := Split(before, '\n');
    var made := Apply(lines, hunks).value;
    SplitJoins(before, '\n');
    ApplyApart(lines, hunks, 0, []);
    JoinedFrom(made, after);
    if made == [] {
      EmptiedBack(lines, hunks, 0);
      assert lines[..0] == [];
      NothingSplits();
      JoinMore(lines, "");
    } else {
      ReversalRestores(lines, hunks);
    }
  }

  lemma NothingSplits()
    ensures Split("", '\n') == [""]
  {
    assert Find("", '\n') == 0;
  }

  /** A patch that does not lead from the one text to the other is believed only
      from nothing. */
  lemma TakenBackAstray(before: string, after: string, hunks: seq<Hunk>)
    requires Clean(hunks) && before != after && !Leads(before, after, hunks)
    ensures var back := Apply(Split(after, '\n'), Reversed(hunks));
            (&& back.Some? && JoinLines(back.value) == before
             && Apply(back.value, hunks).Some? && JoinLines(Apply(back.value, hunks).value) == after)
            <==> MadeOfNothing(before, after, hunks)
    ensures MadeOfNothing(before, after, hunks) ==> Apply(Split(after, '\n'), Reversed(hunks)) == Some([])
  {
    hide ApplyFrom, Inside, Split, Join;
    var lines := Split(after, '\n');
    SplitJoins(after, '\n');
    if Apply([], hunks).Some? { ReversalRestores([], hunks); }
    var back := Apply(lines, Reversed(hunks));
    if back.Some? && JoinLines(back.value) == before {
      ReversedClean(hunks);
      ApplyApart(lines, Reversed(hunks), 0, []);
      JoinedFrom(back.value, before);
      if Apply(back.value, hunks).Some? && JoinLines(Apply(back.value, hunks).value) == after {
        ApplyApart(back.value, hunks, 0, []);
        JoinedFrom(Apply(back.value, hunks).value, after);
      }
    }
  }

  /** What is found from each of the two texts. From the upstream text, its lines
      exactly when the patch leads to the adapted one. From the adapted text the
      same, but for three kinds of patches: one with a hunk past the end or that
      leaves no line is not recognised, and one that makes the text of no lines at
      all is, although it does not lead there from the empty file. */
  lemma SameFromEither(before: string, after: string, hunks: seq<Hunk>, digest: string -> int)
    requires Injective(digest) && Clean(hunks)
    ensures Upstream(before, hunks, digest, digest(before), digest(after)) ==
            if Leads(before, after, hunks) then Some(Split(before, '\n')) else None
    ensures before != after ==>
              Upstream(after, hunks, digest, digest(before), digest(after)) ==
              if Leads(before, after, hunks) then if Returns(before, hunks) then Some(Split(before, '\n')) else None
              else if MadeOfNothing(before, after, hunks) then Some([]) else None
  {
    hide Apply, Returns, MadeOfNothing, Split, JoinLines;
    TextJoins(before);
    if before != after {
      if Leads(before, after, hunks) {
        TakenBack(before, after, hunks);
      } else {
        TakenBackAstray(before, after, hunks);
      }
    }
  }

  /** So both texts lead to the same lines exactly when a patch that leads from the
      one to the other can be taken back, and one that does not makes nothing of nothing. */
  lemma SameExactlyWhen(before: string, after: string, hunks: seq<Hunk>, digest: string -> int)
    requires Injective(digest) && Clean(hunks)
    ensures Upstream(before, hunks, digest, digest(before), digest(after)) ==
            Upstream(after, hunks, digest, digest(before), digest(after)) <==>
            || before == after
            || (if Leads(before, after, hunks) then Returns(before, hunks) else !MadeOfNothing(before, after, hunks))
  {
    hide Upstream, Leads, Returns, MadeOfNothing;
    SameFromEither(before, after, hunks, digest);
  }

  lemma OneLine(text: string)
    requires '\n' !in text
    ensures Split(text, '\n') == [text]
  {
    assert Find(text, '\n') == |text|;
  }

  const EMPTYING := Hunk(1, 1, 0, 0, ["a"], [], [Del("a")])

  /** A patch that leaves no line leads from the upstream text, and is refused from the adapted one. */
  lemma Emptied(digest: string -> int)
    requires Injective(digest)
    ensures Counted(EMPTYING) && Inside(["a"], [EMPTYING])
    ensures Upstream("a", [EMPTYING], digest, digest("a"), digest("")) == Some(["a"])
    ensures Upstream("", [EMPTYING], digest, digest("a"), digest("")) == None
  {
    hide Upstream, Split;
    assert EMPTYING.body[1..] == [];
    var hunks := [EMPTYING];
    OneLine("a");
    FirstApplied(["a"], hunks, 0, []);
    assert Slice(["a"], 0, 1) == ["a"] && Slice(["a"], 0, 0) == [];
    assert hunks[1..] == [] && [] + Slice(["a"], 0, 0) + EMPTYING.newLines == [];
    assert ApplyFrom(["a"], [], 1, []) == Some([]);
    SameFromEither("a", "", hunks, digest);
  }

  const CREATING := Hunk(0, 0, 1, 1, [], ["a"], [Add("a")])

  /** A patch that makes a text without final line break of no lines is believed
      from the adapted text only: an empty file is one empty line. */
  lemma Created(digest: string -> int)
    requires Injective(digest)
    ensures Counted(CREATING)
    ensures Upstream("", [CREATING], digest, digest(""), digest("a")) == None
    ensures Upstream("a", [CREATING], digest, digest(""), digest("a")) == Some([])
  {
    hide Upstream, Split, Apply, JoinLines;
    assert CREATING.body[1..] == [];
    OneLine("a");
    NothingSplits();
    CreatingNothing();
    CreatingEmpty();
    SameFromEither("", "a", [CREATING], digest);
  }

  lemma CreatingNothing()
    ensures Apply([], [CREATING]) == Some(["a"])
  {
    hide ApplyFrom;
    FirstApplied([], [CREATING], 0, []);
    assert [CREATING][1..] == [] && [] + [] + ["a"] == ["a"];
    NoneLeft([], 0, ["a"]);
    assert ["a"] + [] == ["a"];
  }

  lemma CreatingEmpty()
    ensures Apply([""], [CREATING]) == Some(["a", ""]) && JoinLines(["a", ""]) != "a"
  {
    hide ApplyFrom;
    FirstApplied([""], [CREATING], 0, []);
    assert Slice([""], 0, 0) == [] && [CREATING][1..] == [] && [] + [] + ["a"] == ["a"];
    NoneLeft([""], 0, ["a"]);
    assert [""][0..] == [""] && ["a"] + [""] == ["a", ""];
    JoinMore(["a"], "");
  }

  // ---- reading the hunks of a patch

  datatype Counts = Counts(oldAt: nat, oldCount: nat, newAt: nat, newCount: nat)

  predicate IsEdit(line: string) { line != [] && (line[0] == '-' || line[0] == '+' || line[0] == ' ') }

  function AsEdit(line: string): Edit
    requires IsEdit(line)
  {
    if line[0] == '-' then Del(line[1..]) else if line[0] == '+' then Add(line[1..]) else Keep(line[1..])
  }

  function Shown(e: Edit): string {
    match e
    case Keep(t) => " " + t
    case Del(t) => "-" + t
    case Add(t) => "+" + t
  }

  function ShownBody(body: seq<Edit>): seq<string> {
    if body == [] then [] else [Shown(body[0])] + ShownBody(body[1..])
  }

  lemma ShownEdit(line: string)
    requires IsEdit(line)
    ensures Shown(AsEdit(line)) == line
  {
    assert line == [line[0]] + line[1..];
  }

  predicate Unwanted(line: string, o: nat, n: nat, c: Counts) {
    !IsEdit(line) || (line[0] == '-' && o >= c.oldCount) || (line[0] == '+' && n >= c.newCount)
  }

  /** The lines of a hunk, when o old and n new ones have been read: on until
      both counts are reached. */
  function ReadBody(lines: seq<string>, o: nat, n: nat, c: Counts): Option<seq<Edit>>
    decreases |lines|
  {
    if o >= c.oldCount && n >= c.newCount then Some([])
    else if lines == [] || Unwanted(lines[0], o, n, c) then None
    else
      var e := AsEdit(lines[0]);
      match ReadBody(lines[1..], if e.Add? then o else o + 1, if e.Del? then n else n + 1, c)
      case None => None
      case Some(rest) => Some([e] + rest)
  }

  /** Each context line that the hunk takes comes while both counts are still open. */
  predicate Fits(lines: seq<string>, o: nat, n: nat, c: Counts)
    decreases |lines|
  {
    || (o >= c.oldCount && n >= c.newCount)
    || lines == [] || Unwanted(lines[0], o, n, c)
    || (&& (lines[0][0] == ' ' ==> o < c.oldCount && n < c.newCount)
        && Fits(lines[1..], if lines[0][0] == '+' then o else o + 1, if lines[0][0] == '-' then n else n + 1, c))
  }

  /** A hunk that is read holds at least the lines its header counts, and exactly
      those if and only if each context line comes while both counts are open. */
  lemma {:induction false} BodyCounts(lines: seq<string>, o: nat, n: nat, c: Counts)
    requires ReadBody(lines, o, n, c).Some?
    ensures var body := ReadBody(lines, o, n, c).value;
            && o + |OldLines(body)| >= c.oldCount && n + |NewLines(body)| >= c.newCount
            && (o + |OldLines(body)| == c.oldCount && n + |NewLines(body)| == c.newCount <==>
                  o <= c.oldCount && n <= c.newCount && Fits(lines, o, n, c))
            && ShownBody(body) <= lines
    decreases |lines|
  {
    var body := ReadBody(lines, o, n, c).value;
    if !(o >= c.oldCount && n >= c.newCount) {
      var e := AsEdit(lines[0]);
      var o', n' := if e.Add? then o else o + 1, if e.Del? then n else n + 1;
      assert body[1..] == ReadBody(lines[1..], o', n', c).value;
      ShownEdit(lines[0]);
      BodyCounts(lines[1..], o', n', c);
    }
  }

  /** A context line after the old count is reached is read all the same, so a
      hunk can hold a line more than its header counts. */
  lemma Miscounted()
    ensures var c := Counts(1, 0, 1, 1);
            var body := [Keep("x")];
            ReadBody([" x"], 0, 0, c) == Some(body) && |OldLines(body)| == 1 && !Fits([" x"], 0, 0, c)
  {
    var c := Counts(1, 0, 1, 1);
    assert [" x"][1..] == [];
    assert ReadBody([], 1, 1, c) == Some([]);
    assert AsEdit(" x") == Keep("x");
    assert [Keep("x")] + [] == [Keep("x")];
    assert [Keep("x")][1..] == [];
    assert ReadBody([" x"], 0, 0, c) == Some([Keep("x")] + []);
  }

  /** The lines read so far, and those still to be read, make up the whole. */
  ghost predicate Resumes(lines: seq<string>, c: Counts, body: seq<Edit>, rest: seq<string>, o: nat, n: nat) {
    match ReadBody(rest, o, n, c)
    case None => ReadBody(lines, 0, 0, c).None?
    case Some(more) => ReadBody(lines, 0, 0, c) == Some(body + more)
  }

  lemma ResumesOne(lines: seq<string>, c: Counts, body: seq<Edit>, rest: seq<string>, o: nat, n: nat)
    requires Resumes(lines, c, body, rest, o, n) && !(o >= c.oldCount && n >= c.newCount)
    ensures rest == [] || Unwanted(rest[0], o, n, c) ==> ReadBody(lines, 0, 0, c).None?
    ensures rest != [] && !Unwanted(rest[0], o, n, c) ==>
              var e := AsEdit(rest[0]);
              Resumes(lines, c, body + [e], rest[1..], if e.Add? then o else o + 1, if e.Del? then n else n + 1)
  {
    if rest != [] && !Unwanted(rest[0], o, n, c) {
      var e := AsEdit(rest[0]);
      match ReadBody(rest[1..], if e.Add? then o else o + 1, if e.Del? then n else n + 1, c)
      case None =>
      case Some(more) => assert body + ([e] + more) == body + [e] + more;
    }
  }

  method ReadHunkBody(lines: seq<string>, c: Counts) returns (r: Option<seq<Edit>>)
    ensures r == ReadBody(lines, 0, 0, c)
  {
    hide ReadBody, OldLines, NewLines;
    var body: seq<Edit> := [];
    var index, o, n := 0, 0, 0;
    ResumesFirst(lines, c);
    while o < c.oldCount || n < c.newCount
      invariant 0 <= index <= |lines| && 0 <= o && 0 <= n && Resumes(lines, c, body, lines[index..], o, n)
      decreases |lines| - index
    {
      ResumesOne(lines, c, body, lines[index..], o, n);
      if index == |lines| || Unwanted(lines[index], o, n, c) { return None; }
      var e := AsEdit(lines[index]);
      assert lines[index..][1..] == lines[index + 1..];
      body := body + [e];
      if !e.Add? { o := o + 1; }
      if !e.Del? { n := n + 1; }
      index := index + 1;
    }
    ResumesLast(lines, c, body, lines[index..], o, n);
    return Some(body);
  }

  lemma ResumesFirst(lines: seq<string>, c: Counts)
    ensures Resumes(lines, c, [], lines[0..], 0, 0)
  {
    assert lines[0..] == lines;
    if ReadBody(lines, 0, 0, c).Some? { assert [] + ReadBody(lines, 0, 0, c).value == ReadBody(lines, 0, 0, c).value; }
  }

  lemma ResumesLast(lines: seq<string>, c: Counts, body: seq<Edit>, rest: seq<string>, o: nat, n: nat)
    requires Resumes(lines, c, body, rest, o, n) && o >= c.oldCount && n >= c.newCount
    ensures ReadBody(lines, 0, 0, c) == Some(body)
  {
    assert body + [] == body;
  }

  // ---- the files of a patch

  datatype Part = Part(head: string, hunk: Hunk)

  datatype File = File(path: string, parts: seq<Part>)

  function ShownParts(parts: seq<Part>): seq<string> {
    if parts == [] then []
    else ShownParts(parts[..|parts| - 1]) + [parts[|parts| - 1].head] + ShownBody(parts[|parts| - 1].hunk.body)
  }

  function ShownFile(f: File): seq<string> { ["--- a/" + f.path, "+++ b/" + f.path] + ShownParts(f.parts) }

  function ShownFiles(files: seq<File>): seq<string> {
    if files == [] then [] else ShownFiles(files[..|files| - 1]) + ShownFile(files[|files| - 1])
  }

  predicate PartSound(p: Part, header: string -> Option<Counts>) {
    var h := p.hunk;
    && header(p.head) == Some(Counts(h.oldAt, h.oldCount, h.newAt, h.newCount))
    && !StartsWith(p.head, "--- ")
    && h.oldLines == OldLines(h.body) && h.newLines == NewLines(h.body)
    && ReadBody(ShownBody(h.body), 0, 0, Counts(h.oldAt, h.oldCount, h.newAt, h.newCount)) == Some(h.body)
  }

  ghost predicate FilesSound(files: seq<File>, header: string -> Option<Counts>) {
    forall i, j :: 0 <= i < |files| && 0 <= j < |files[i].parts| ==> PartSound(files[i].parts[j], header)
  }

  lemma MoreFile(files: seq<File>, path: string)
    ensures ShownFiles(files + [File(path, [])]) == ShownFiles(files) + ["--- a/" + path, "+++ b/" + path]
  {
    var all := files + [File(path, [])];
    assert all[..|all| - 1] == files && all[|all| - 1] == File(path, []);
    assert ShownParts([]) == [];
  }

  function WithPart(files: seq<File>, p: Part): seq<File>
    requires files != []
  {
    var f := files[|files| - 1];
    files[..|files| - 1] + [File(f.path, f.parts + [p])]
  }

  lemma MorePart(files: seq<File>, p: Part)
    requires files != []
    ensures ShownFiles(WithPart(files, p)) == ShownFiles(files) + ([p.head] + ShownBody(p.hunk.body))
  {
    var n := |files| - 1;
    var f := files[n];
    var parts := f.parts + [p];
    assert parts[..|parts| - 1] == f.parts && parts[|parts| - 1] == p;
    var all := WithPart(files, p);
    assert all[..n] == files[..n] && all[n] == File(f.path, parts);
    Regrouped(ShownFiles(files[..n]), ["--- a/" + f.path, "+++ b/" + f.path], ShownParts(f.parts), [p.head],
      ShownBody(p.hunk.body));
  }

  lemma Regrouped(a: seq<string>, b: seq<string>, c: seq<string>, d: seq<string>, e: seq<string>)
    ensures a + (b + (c + d + e)) == a + (b + c) + (d + e)
  {
  }

  predicate StartsWith(s: string, prefix: string) { prefix <= s }

  lemma Prefixed(s: string, prefix: string)
    requires StartsWith(s, prefix)
    ensures s == prefix + s[|prefix|..]
  {
  }

  predicate FileHeader(lines: seq<string>, index: nat)
    requires index < |lines|
  {
    && StartsWith(lines[index], "--- a/") && index + 1 < |lines| && StartsWith(lines[index + 1], "+++ b/")
    && lines[index][6..] == lines[index + 1][6..]
  }

  function HunksOf(f: File): (r: seq<Hunk>)
    ensures |r| == |f.parts| && forall i :: 0 <= i < |r| ==> r[i] == f.parts[i].hunk
  {
    seq(|f.parts|, i requires 0 <= i < |f.parts| => f.parts[i].hunk)
  }

  lemma {:induction false} BodyClean(body: seq<Edit>)
    requires Apart(ShownBody(body), '\n')
    ensures Apart(OldLines(body), '\n') && Apart(NewLines(body), '\n')
    decreases |body|
  {
    if body != [] {
      var shown := ShownBody(body);
      assert shown[0] == Shown(body[0]) && '\n' !in shown[0];
      assert forall c :: c in body[0].text ==> c in Shown(body[0]);
      assert forall i :: 0 <= i < |ShownBody(body[1..])| ==> ShownBody(body[1..])[i] == shown[i + 1];
      BodyClean(body[1..]);
    }
  }

  lemma ApartParts(a: seq<string>, b: seq<string>)
    requires Apart(a + b, '\n')
    ensures Apart(a, '\n') && Apart(b, '\n')
  {
    assert forall i :: 0 <= i < |a| ==> a[i] == (a + b)[i];
    assert forall i :: 0 <= i < |b| ==> b[i] == (a + b)[|a| + i];
  }

  lemma {:induction false} PartsClean(parts: seq<Part>, header: string -> Option<Counts>, j: nat)
    requires Apart(ShownParts(parts), '\n') && j < |parts| && PartSound(parts[j], header)
    ensures Apart(parts[j].hunk.oldLines, '\n') && Apart(parts[j].hunk.newLines, '\n')
    decreases |parts|
  {
    hide OldLines, NewLines, ShownBody, ReadBody;
    var n := |parts| - 1;
    ApartParts(ShownParts(parts[..n]) + [parts[n].head], ShownBody(parts[n].hunk.body));
    ApartParts(ShownParts(parts[..n]), [parts[n].head]);
    if j < n { PartsClean(parts[..n], header, j); } else { BodyClean(parts[n].hunk.body); }
  }

  /** A patch cut at its line breaks gives hunks whose lines hold none. */
  lemma {:induction false} FilesClean(files: seq<File>, header: string -> Option<Counts>, i: nat)
    requires Apart(ShownFiles(files), '\n') && FilesSound(files, header) && i < |files|
    ensures Clean(HunksOf(files[i]))
    decreases |files|
  {
    hide OldLines, NewLines, ShownBody, ReadBody, PartSound;
    var n := |files| - 1;
    var f := files[n];
    ApartParts(ShownFiles(files[..n]), ShownFile(f));
    if i < n {
      FilesClean(files[..n], header, i);
    } else {
      ApartParts(["--- a/" + f.path, "+++ b/" + f.path], ShownParts(f.parts));
      forall j | 0 <= j < |f.parts|
        ensures Apart(f.parts[j].hunk.oldLines, '\n') && Apart(f.parts[j].hunk.newLines, '\n')
      {
        PartsClean(f.parts, header, j);
      }
    }
  }

  lemma ResultClean(lines: seq<string>, rest: seq<string>, files: seq<File>, header: string -> Option<Counts>)
    requires lines == ShownFiles(files) + rest && FilesSound(files, header)
    ensures Apart(lines, '\n') ==> forall i :: 0 <= i < |files| ==> Clean(HunksOf(files[i]))
  {
    if Apart(lines, '\n') {
      ApartParts(ShownFiles(files), rest);
      forall i | 0 <= i < |files|
        ensures Clean(HunksOf(files[i]))
      {
        FilesClean(files, header, i);
      }
    }
  }

  /** A place up to which the patch can be read, and where it goes no further. */
  ghost predicate Stuck(lines: seq<string>, index: nat, files: seq<File>, header: string -> Option<Counts>) {
    && index < |lines| && lines[..index] == ShownFiles(files) && FilesSound(files, header)
    && !(lines[index] == "" && index == |lines| - 1)
    && if StartsWith(lines[index], "--- ") then !FileHeader(lines, index)
       else
         || header(lines[index]).None? || files == []
         || (match ReadBody(lines[index + 1..], 0, 0, header(lines[index]).value)
             case None => true
             case Some(body) =>
               index + 1 + |body| < |lines| && StartsWith(lines[index + 1 + |body|], "\\"))
  }

  /** The files of a patch and their hunks, or nothing when a line belongs to
      neither a file header nor a hunk. Every line of the patch is accounted
      for, but for an empty last one. */
  method PatchFiles(lines: seq<string>, header: string -> Option<Counts>) returns (r: Option<seq<File>>)
    ensures r.Some? ==> lines == ShownFiles(r.value) || lines == ShownFiles(r.value) + [""]
    ensures r.Some? ==> FilesSound(r.value, header)
    ensures r.Some? && Apart(lines, '\n') ==> forall i :: 0 <= i < |r.value| ==> Clean(HunksOf(r.value[i]))
    ensures r.None? ==> exists files, index :: Stuck(lines, index, files, header)
  {
    hide OldLines, NewLines, ShownFiles, ShownBody, ReadBody;
    var files: seq<File> := [];
    var index := 0;
    NoFiles();
    while index < |lines|
      invariant 0 <= index <= |lines| && lines[..index] == ShownFiles(files) && FilesSound(files, header)
      decreases |lines| - index
    {
      var line := lines[index];
      if line == "" && index == |lines| - 1 {
        assert lines == lines[..index] + [""];
        ResultClean(lines, [""], files, header);
        return Some(files);
      }
      if StartsWith(line, "--- ") {
        if index + 1 == |lines| || !StartsWith(lines[index + 1], "+++ b/") || !StartsWith(line, "--- a/")
           || line[6..] != lines[index + 1][6..] {
          assert Stuck(lines, index, files, header);
          return None;
        }
        Prefixed(line, "--- a/");
        Prefixed(lines[index + 1], "+++ b/");
        MoreFile(files, line[6..]);
        assert lines[..index + 2] == lines[..index] + [lines[index], lines[index + 1]];
        files := files + [File(line[6..], [])];
        index := index + 2;
        continue;
      }
      var c := header(line);
      if c.None? || files == [] {
        assert Stuck(lines, index, files, header);
        return None;
      }
      var body := ReadHunkBody(lines[index + 1..], c.value);
      if body.None? {
        assert Stuck(lines, index, files, header);
        return None;
      }
      var part := Part(line, Hunk(c.value.oldAt, c.value.oldCount, c.value.newAt, c.value.newCount,
                                  OldLines(body.value), NewLines(body.value), body.value));
      var next := index + 1 + |body.value|;
      BodyStands(lines[index + 1..], c.value);
      if next < |lines| && StartsWith(lines[next], "\\") {
        assert Stuck(lines, index, files, header);
        return None;
      }
      MorePart(files, part);
      assert lines[..next] == lines[..index] + ([line] + lines[index + 1..][..|body.value|]);
      AddPart(files, part, header);
      files := WithPart(files, part);
      index := next;
    }
    assert lines[..|lines|] == lines;
    assert lines + [] == lines;
    ResultClean(lines, [], files, header);
    return Some(files);
  }

  lemma NoFiles()
    ensures ShownFiles([]) == []
  {
  }

  lemma BodyStands(lines: seq<string>, c: Counts)
    requires ReadBody(lines, 0, 0, c).Some?
    ensures var body := ReadBody(lines, 0, 0, c).value;
            && |body| <= |lines| && ShownBody(body) == lines[..|body|]
            && ReadBody(ShownBody(body), 0, 0, c) == Some(body)
  {
    BodyCounts(lines, 0, 0, c);
    ReadsItself(lines, 0, 0, c);
    ShownLength(ReadBody(lines, 0, 0, c).value);
  }

  /** The lines a hunk was read from, and no more, give the same hunk. */
  lemma {:induction false} ReadsItself(lines: seq<string>, o: nat, n: nat, c: Counts)
    requires ReadBody(lines, o, n, c).Some?
    ensures var body := ReadBody(lines, o, n, c).value; ReadBody(ShownBody(body), o, n, c) == Some(body)
    decreases |lines|
  {
    var body := ReadBody(lines, o, n, c).value;
    if !(o >= c.oldCount && n >= c.newCount) {
      var e := AsEdit(lines[0]);
      var o', n' := if e.Add? then o else o + 1, if e.Del? then n else n + 1;
      assert body[1..] == ReadBody(lines[1..], o', n', c).value;
      ShownEdit(lines[0]);
      ReadsItself(lines[1..], o', n', c);
      assert ShownBody(body)[1..] == ShownBody(body[1..]);
    }
  }

  lemma {:induction false} ShownLength(body: seq<Edit>)
    ensures |ShownBody(body)| == |body|
  {
    if body != [] { ShownLength(body[1..]); }
  }

  lemma AddPart(files: seq<File>, p: Part, header: string -> Option<Counts>)
    requires files != [] && FilesSound(files, header) && PartSound(p, header)
    ensures FilesSound(WithPart(files, p), header)
  {
  }
}
