/**
 How m4 reads a policy source: its quote and parenthesis depth at the start of
 each line, and each line's code without the comments it sees. Which changes of
 a patch need no record, and what such a patch leaves as it was.
 */
module M4 {
  import opened Common
  import opened Patch

  /** Quote depth, and parenthesis depth outside quotes. */
  datatype Lex = Lex(quote: nat, depth: nat)

  const TOP := Lex(0, 0)

  predicate Comment(s: Lex, c: char) { s.quote == 0 && c == '#' }

  /** The state after one character that is kept. */
  function Step(s: Lex, c: char): Lex {
    if c == '`' then s.(quote := s.quote + 1)
    else if c == '\'' && s.quote > 0 then s.(quote := s.quote - 1)
    else if s.quote == 0 && c == '(' then s.(depth := s.depth + 1)
    else if s.quote == 0 && c == ')' && s.depth > 0 then s.(depth := s.depth - 1)
    else s
  }

  /** Whether that character leaves the state that the lines started in: it closes
      what was opened before them, or adds an argument to a call open around them. */
  predicate Leaves(base: Lex, s: Lex, c: char) {
    if c == '`' then false
    else if c == '\'' && s.quote > 0 then s.quote - 1 < base.quote
    else if s.quote == 0 && c == '(' then s.depth + 1 < base.depth
    else if s.quote == 0 && c == ')' then s.depth - 1 < base.depth
    else if s.quote == 0 && c == ',' then s.depth < base.depth || s.depth == base.depth > 0
    else false
  }

  /** The code of a line from a state: what comes before the first comment. */
  function Code(line: string, s: Lex): string {
    if line == [] || Comment(s, line[0]) then [] else [line[0]] + Code(line[1..], Step(s, line[0]))
  }

  function Through(line: string, s: Lex): Lex {
    if line == [] || Comment(s, line[0]) then s else Through(line[1..], Step(s, line[0]))
  }

  predicate LineLeaves(base: Lex, line: string, s: Lex) {
    line != [] && !Comment(s, line[0]) && (Leaves(base, s, line[0]) || LineLeaves(base, line[1..], Step(s, line[0])))
  }

  function After(lines: seq<string>, s: Lex): Lex {
    if lines == [] then s else After(lines[1..], Through(lines[0], s))
  }

  function Codes(lines: seq<string>, s: Lex): (r: seq<string>)
    ensures |r| == |lines|
  {
    if lines == [] then [] else [Code(lines[0], s)] + Codes(lines[1..], Through(lines[0], s))
  }

  predicate LinesLeave(base: Lex, lines: seq<string>, s: Lex) {
    lines != [] && (LineLeaves(base, lines[0], s) || LinesLeave(base, lines[1..], Through(lines[0], s)))
  }

  /** One line of the scan: its code, the state after it, and whether it left the base. */
  method LexLine(base: Lex, line: string, start: Lex) returns (code: string, end: Lex, left: bool)
    ensures code == Code(line, start) && end == Through(line, start) && left == LineLeaves(base, line, start)
  {
    var quote: nat, depth: nat := start.quote, start.depth;
    var kept := [];
    left := false;
    var i := 0;
    assert line[0..] == line;
    while i < |line|
      invariant 0 <= i <= |line|
      invariant Code(line, start) == kept + Code(line[i..], Lex(quote, depth))
      invariant Through(line, start) == Through(line[i..], Lex(quote, depth))
      invariant LineLeaves(base, line, start) == (left || LineLeaves(base, line[i..], Lex(quote, depth)))
      decreases |line| - i
    {
      var c := line[i];
      assert line[i..][0] == c && line[i..][1..] == line[i + 1..];
      if quote == 0 && c == '#' {
        assert kept + [] == kept;
        return kept, Lex(quote, depth), left;
      }
      KeptMore(kept, c, Code(line[i + 1..], Step(Lex(quote, depth), c)));
      kept := kept + [c];
      if c == '`' {
        quote := quote + 1;
      } else if c == '\'' && quote > 0 {
        quote := quote - 1;
        left := left || quote < base.quote;
      } else if quote == 0 && (c == '(' || c == ')' || c == ',') {
        var d: int := depth + (if c == '(' then 1 else if c == ')' then -1 else 0);
        left := left || d < base.depth || (c == ',' && d == base.depth && base.depth > 0);
        depth := if d > 0 then d else 0;
      }
      i := i + 1;
    }
    assert kept + [] == kept;
    return kept, Lex(quote, depth), left;
  }

  lemma KeptMore(kept: string, c: char, rest: string)
    ensures kept + ([c] + rest) == kept + [c] + rest
  {
  }

  /** m4's view of the lines from a state. */
  method M4Lex(lines: seq<string>, start: Lex) returns (codes: seq<string>, end: Lex, left: bool)
    ensures codes == Codes(lines, start) && end == After(lines, start) && left == LinesLeave(start, lines, start)
  {
    hide Code, Through, LineLeaves;
    codes, end, left := [], start, false;
    assert lines[0..] == lines;
    for i := 0 to |lines|
      invariant Codes(lines, start) == codes + Codes(lines[i..], end)
      invariant After(lines, start) == After(lines[i..], end)
      invariant LinesLeave(start, lines, start) == (left || LinesLeave(start, lines[i..], end))
    {
      assert lines[i..][0] == lines[i] && lines[i..][1..] == lines[i + 1..];
      var code, after, gone := LexLine(start, lines[i], end);
      assert codes + ([code] + Codes(lines[i + 1..], after)) == codes + [code] + Codes(lines[i + 1..], after);
      codes := codes + [code];
      end := after;
      left := left || gone;
    }
    assert codes + [] == codes;
  }

  // ---- states at the start of each line

  function StateAt(lines: seq<string>, i: nat): Lex
    requires i <= |lines|
  {
    After(lines[..i], TOP)
  }

  lemma {:induction false} AfterBoth(a: seq<string>, b: seq<string>, s: Lex)
    ensures After(a + b, s) == After(b, After(a, s))
    decreases |a|
  {
    hide Through;
    if a == [] {
      assert a + b == b;
    } else {
      assert (a + b)[1..] == a[1..] + b;
      AfterBoth(a[1..], b, Through(a[0], s));
    }
  }

  method LineStates(lines: seq<string>) returns (states: seq<Lex>)
    ensures |states| == |lines| + 1 && forall i :: 0 <= i <= |lines| ==> states[i] == StateAt(lines, i)
  {
    hide Through;
    states := [TOP];
    assert lines[..0] == [];
    for k := 0 to |lines|
      invariant |states| == k + 1 && forall i :: 0 <= i <= k ==> states[i] == StateAt(lines, i)
    {
      var _, end, _ := M4Lex([lines[k]], states[k]);
      assert lines[..k + 1] == lines[..k] + [lines[k]];
      AfterBoth(lines[..k], [lines[k]], TOP);
      states := states + [end];
    }
  }

  // ---- the changes of a hunk

  /** A run of removed and added lines, and the upstream index it starts at. */
  datatype Group = Group(position: nat, removed: seq<string>, added: seq<string>)

  /** The length of the run of changes at the front. */
  function ChangeRun(body: seq<Edit>): (k: nat)
    ensures k <= |body| && (forall i :: 0 <= i < k ==> !body[i].Keep?) && (k < |body| ==> body[k].Keep?)
  {
    if body == [] || body[0].Keep? then 0 else 1 + ChangeRun(body[1..])
  }

  function Groups(body: seq<Edit>, position: nat): seq<Group>
    decreases |body|
  {
    if body == [] then []
    else if body[0].Keep? then Groups(body[1..], position + 1)
    else
      var k := ChangeRun(body);
      [Group(position, OldLines(body[..k]), NewLines(body[..k]))] + Groups(body[k..], position + |OldLines(body[..k])|)
  }

  /** The groups of a body behind a group that is still open. */
  function GroupsOn(body: seq<Edit>, position: nat, open: Group): seq<Group>
    decreases |body|
  {
    if body == [] then [open]
    else match body[0]
      case Keep(_) => [open] + Groups(body[1..], position + 1)
      case Del(t) => GroupsOn(body[1..], position + 1, open.(removed := open.removed + [t]))
      case Add(t) => GroupsOn(body[1..], position, open.(added := open.added + [t]))
  }

  /** What the first edit makes of an open group. */
  lemma FirstOn(body: seq<Edit>, position: nat, open: Group)
    ensures body != [] && body[0].Del? ==>
              GroupsOn(body, position, open)
              == GroupsOn(body[1..], position + 1, open.(removed := open.removed + [body[0].text]))
    ensures body != [] && body[0].Add? ==>
              GroupsOn(body, position, open)
              == GroupsOn(body[1..], position, open.(added := open.added + [body[0].text]))
  {
    hide Groups;
  }

  lemma GroupClosed(body: seq<Edit>, position: nat, open: Group)
    requires body == [] || body[0].Keep?
    ensures GroupsOn(body, position, open) == [open] + Groups(body, position)
  {
  }

  lemma {:induction false} GroupsOnIs(body: seq<Edit>, position: nat, open: Group)
    ensures GroupsOn(body, position, open) ==
            var k := ChangeRun(body);
            [Group(open.position, open.removed + OldLines(body[..k]), open.added + NewLines(body[..k]))]
            + Groups(body[k..], position + |OldLines(body[..k])|)
    decreases |body|
  {
    hide OldLines, NewLines, Groups, GroupsOn;
    var k := ChangeRun(body);
    NothingChanged();
    FirstOn(body, position, open);
    if body == [] || body[0].Keep? {
      assert body[..0] == [] && body[0..] == body;
      assert open.removed + [] == open.removed && open.added + [] == open.added;
      GroupClosed(body, position, open);
    } else {
      var rest := body[1..];
      assert body[k..] == rest[k - 1..];
      FirstChange(body, k);
      if body[0].Del? {
        GroupsOnIs(rest, position + 1, open.(removed := open.removed + [body[0].text]));
        Longer(open.removed, body[0].text, OldLines(rest[..k - 1]));
      } else {
        GroupsOnIs(rest, position, open.(added := open.added + [body[0].text]));
        Longer(open.added, body[0].text, NewLines(rest[..k - 1]));
      }
    }
  }

  lemma NothingChanged()
    ensures OldLines([]) == [] && NewLines([]) == []
  {
  }

  lemma FirstChange(body: seq<Edit>, k: nat)
    requires 0 < k <= |body| && !body[0].Keep?
    ensures OldLines(body[..k]) == (if body[0].Del? then [body[0].text] else []) + OldLines(body[1..][..k - 1])
    ensures NewLines(body[..k]) == (if body[0].Add? then [body[0].text] else []) + NewLines(body[1..][..k - 1])
    ensures body[0].Del? ==> NewLines(body[..k]) == NewLines(body[1..][..k - 1])
    ensures body[0].Add? ==> OldLines(body[..k]) == OldLines(body[1..][..k - 1])
  {
    assert body[..k][0] == body[0] && body[..k][1..] == body[1..][..k - 1];
  }

  lemma Longer(a: seq<string>, x: string, b: seq<string>)
    ensures a + [x] + b == a + ([x] + b)
  {
  }

  /** A body that begins with a change opens its first group there. */
  lemma GroupsOpen(body: seq<Edit>, position: nat)
    requires body != [] && !body[0].Keep?
    ensures Groups(body, position) == GroupsOn(body, position, Group(position, [], []))
  {
    hide OldLines, NewLines, GroupsOn;
    GroupsOnIs(body, position, Group(position, [], []));
    var k := ChangeRun(body);
    assert [] + OldLines(body[..k]) == OldLines(body[..k]) && [] + NewLines(body[..k]) == NewLines(body[..k]);
  }

  method HunkGroups(h: Hunk) returns (groups: seq<Group>)
    requires Start(h) >= 0
    ensures groups == Groups(h.body, Start(h))
  {
    hide ChangeRun, OldLines, NewLines;
    groups := [];
    var position: nat := Start(h);
    var open: Option<Group> := None;
    assert h.body[0..] == h.body;
    for i := 0 to |h.body|
      invariant Groups(h.body, Start(h)) ==
                groups + match open
                         case None => Groups(h.body[i..], position)
                         case Some(g) => GroupsOn(h.body[i..], position, g)
    {
      var rest := h.body[i..];
      assert rest[0] == h.body[i] && rest[1..] == h.body[i + 1..];
      match h.body[i]
      case Keep(_) =>
        if open.Some? {
          Behind(groups, open.value, Groups(h.body[i + 1..], position + 1));
          groups := groups + [open.value];
        }
        open := None;
        position := position + 1;
      case Del(t) =>
        if open.None? { GroupsOpen(rest, position); }
        var g := if open.None? then Group(position, [], []) else open.value;
        open := Some(g.(removed := g.removed + [t]));
        position := position + 1;
      case Add(t) =>
        if open.None? { GroupsOpen(rest, position); }
        var g := if open.None? then Group(position, [], []) else open.value;
        open := Some(g.(added := g.added + [t]));
    }
    if open.Some? { groups := groups + [open.value]; }
    assert groups + [] == groups;
  }

  lemma Behind(a: seq<Group>, g: Group, b: seq<Group>)
    ensures a + ([g] + b) == a + [g] + b
  {
  }

  // ---- which changes need a record

  /** Python's white space. */
  predicate Space(c: char) {
    var n := c as int;
    || 0x09 <= n <= 0x0D || 0x1C <= n <= 0x20 || n == 0x85 || n == 0xA0 || n == 0x1680 || 0x2000 <= n <= 0x200A
    || n == 0x2028 || n == 0x2029 || n == 0x202F || n == 0x205F || n == 0x3000
  }

  predicate Blank(code: string) { forall i :: 0 <= i < |code| ==> Space(code[i]) }

  predicate AllBlank(codes: seq<string>) { forall i :: 0 <= i < |codes| ==> Blank(codes[i]) }

  predicate AnyIs(codes: seq<string>, p: string -> bool) { exists i :: 0 <= i < |codes| && p(codes[i]) }

  function FirstIs(codes: seq<string>, p: string -> bool): (k: nat)
    ensures k <= |codes| && (k < |codes| ==> p(codes[k])) && forall i :: 0 <= i < k ==> !p(codes[i])
  {
    if codes == [] || p(codes[0]) then 0 else 1 + FirstIs(codes[1..], p)
  }

  /** The scan for balance: here the depth may fall below zero, which spoils it. */
  datatype Scan = Scan(quote: nat, depth: int, negative: bool)

  function ScanLine(line: string, s: Scan): Scan {
    if line == [] || (s.quote == 0 && line[0] == '#') then s
    else
      var c := line[0];
      ScanLine(line[1..],
        if c == '`' then s.(quote := s.quote + 1)
        else if c == '\'' && s.quote > 0 then s.(quote := s.quote - 1)
        else if s.quote == 0 && c == '(' then s.(depth := s.depth + 1)
        else if s.quote == 0 && c == ')' then s.(depth := s.depth - 1, negative := s.negative || s.depth - 1 < 0)
        else s)
  }

  function ScanLines(lines: seq<string>, s: Scan): Scan {
    if lines == [] then s else ScanLines(lines[1..], ScanLine(lines[0], s))
  }

  predicate Balanced(lines: seq<string>) { ScanLines(lines, Scan(0, 0, false)) == Scan(0, 0, false) }

  /** A statement or a macro definition of the upstream file, by its lines. */
  datatype Region = Region(rule: bool, first: nat, last: nat)

  predicate Touches(g: Group, r: Region) {
    if g.removed != [] then g.position + 1 <= r.last && r.first <= g.position + |g.removed|
    else r.first <= g.position < r.last
  }

  function FirstTouched(g: Group, regions: seq<Region>): (k: nat)
    ensures k <= |regions| && (k < |regions| ==> Touches(g, regions[k]))
    ensures forall i :: 0 <= i < k ==> !Touches(g, regions[i])
  {
    if regions == [] || Touches(g, regions[0]) then 0 else 1 + FirstTouched(g, regions[1..])
  }

  datatype Judgement = NoRecord | Removal(line: nat) | Processing(at: Option<nat>) | Inside(line: nat) | NoSuchPlace

  /** What a change alters that needs a record, judged with m4's state at its
      place in the upstream file. */
  function Judge(g: Group, lines: seq<string>, regions: seq<Region>, rule: string -> bool,
      directive: string -> bool): Judgement {
    if g.position > |lines| then NoSuchPlace
    else
      var start := StateAt(lines, g.position);
      var removed, added := Codes(g.removed, start), Codes(g.added, start);
      var k := FirstIs(removed, rule);
      if k < |removed| then Removal(g.position + k + 1)
      else if start.depth == 0 && AllBlank(removed + added) then NoRecord
      else if LinesLeave(start, g.removed, start) || LinesLeave(start, g.added, start)
              || After(g.removed, start) != start || After(g.added, start) != start
              || !Balanced(g.removed) || !Balanced(g.added) || AnyIs(removed + added, directive)
      then Processing(None)
      else
        var t := FirstTouched(g, regions);
        if t == |regions| then NoRecord
        else if regions[t].rule then Inside(regions[t].first) else Processing(Some(regions[t].first))
  }

  lemma {:induction false} BlankLine(line: string, s: Lex)
    requires Blank(Code(line, s))
    ensures Through(line, s) == s
    decreases |line|
  {
    if line != [] && !Comment(s, line[0]) {
      var code := Code(line, s);
      assert Space(code[0]) && code[1..] == Code(line[1..], Step(s, line[0]));
      assert forall i :: 0 <= i < |code[1..]| ==> code[1..][i] == code[i + 1];
      BlankLine(line[1..], Step(s, line[0]));
    }
  }

  lemma {:induction false} BlankLines(lines: seq<string>, s: Lex)
    requires AllBlank(Codes(lines, s))
    ensures After(lines, s) == s
    decreases |lines|
  {
    hide Code, Through;
    if lines != [] {
      var codes := Codes(lines, s);
      assert codes[0] == Code(lines[0], s) && codes[1..] == Codes(lines[1..], Through(lines[0], s));
      BlankLine(lines[0], s);
      assert forall i :: 0 <= i < |codes[1..]| ==> codes[1..][i] == codes[i + 1];
      BlankLines(lines[1..], s);
    }
  }

  /** A change that needs no record leaves m4's state as it was, on both sides. */
  lemma NoRecordIsNeutral(g: Group, lines: seq<string>, regions: seq<Region>, rule: string -> bool,
      directive: string -> bool)
    requires Judge(g, lines, regions, rule, directive) == NoRecord
    ensures g.position <= |lines|
    ensures var start := StateAt(lines, g.position); After(g.removed, start) == start && After(g.added, start) == start
  {
    hide Codes, LinesLeave, Balanced, StateAt, After, Space;
    var start := StateAt(lines, g.position);
    var removed, added := Codes(g.removed, start), Codes(g.added, start);
    if start.depth == 0 && AllBlank(removed + added) {
      assert forall i :: 0 <= i < |removed| ==> (removed + added)[i] == removed[i];
      assert forall i :: 0 <= i < |added| ==> (removed + added)[|removed| + i] == added[i];
      BlankLines(g.removed, start);
      BlankLines(g.added, start);
    }
  }

  // ---- what a patch without records keeps

  /** The places of a hunk's unchanged lines, upstream and in the patched file. */
  function Pairs(body: seq<Edit>, i: nat, j: nat): seq<(nat, nat)>
    decreases |body|
  {
    if body == [] then []
    else match body[0]
      case Keep(_) => [(i, j)] + Pairs(body[1..], i + 1, j + 1)
      case Del(_) => Pairs(body[1..], i + 1, j)
      case Add(_) => Pairs(body[1..], i, j + 1)
  }

  /** The same line, starting in the same state. */
  ghost predicate Agree(u: seq<string>, p: seq<string>, a: nat, b: nat) {
    a < |u| && b < |p| && u[a] == p[b] && StateAt(u, a) == StateAt(p, b)
  }

  ghost predicate AllAgree(u: seq<string>, p: seq<string>, pairs: seq<(nat, nat)>) {
    forall k :: 0 <= k < |pairs| ==> Agree(u, p, pairs[k].0, pairs[k].1)
  }

  ghost predicate NeedsNone(groups: seq<Group>, u: seq<string>, regions: seq<Region>, rule: string -> bool,
      directive: string -> bool) {
    forall k :: 0 <= k < |groups| ==> Judge(groups[k], u, regions, rule, directive) == NoRecord
  }

  predicate Has(lines: seq<string>, at: nat, part: seq<string>) {
    at + |part| <= |lines| && lines[at..at + |part|] == part
  }

  lemma StateAfter(lines: seq<string>, at: nat, part: seq<string>)
    requires Has(lines, at, part)
    ensures StateAt(lines, at + |part|) == After(part, StateAt(lines, at))
  {
    assert lines[..at + |part|] == lines[..at] + part;
    AfterBoth(lines[..at], part, TOP);
  }

  lemma HasSplit(lines: seq<string>, at: nat, a: seq<string>, b: seq<string>)
    requires Has(lines, at, a + b)
    ensures Has(lines, at, a) && Has(lines, at + |a|, b)
  {
    var whole := lines[at..at + |a + b|];
    assert whole[..|a|] == a && whole[|a|..] == b;
    assert lines[at..at + |a|] == whole[..|a|];
    assert lines[at + |a|..at + |a| + |b|] == whole[|a|..];
  }

  lemma {:induction false} LinesSplit(body: seq<Edit>, k: nat)
    requires k <= |body|
    ensures OldLines(body) == OldLines(body[..k]) + OldLines(body[k..])
    ensures NewLines(body) == NewLines(body[..k]) + NewLines(body[k..])
    decreases k
  {
    hide OldLines, NewLines;
    if k == 0 {
      assert body[..0] == [] && body[0..] == body;
      NothingChanged();
    } else {
      LinesSplit(body[1..], k - 1);
      assert body[1..][k - 1..] == body[k..];
      assert body[..k][0] == body[0] && body[..k][1..] == body[1..][..k - 1];
      FirstEdit(body);
      FirstEdit(body[..k]);
      Regroups(OldOf(body[0]), OldLines(body[1..][..k - 1]), OldLines(body[k..]));
      Regroups(NewOf(body[0]), NewLines(body[1..][..k - 1]), NewLines(body[k..]));
    }
  }

  function OldOf(e: Edit): seq<string> { if e.Add? then [] else [e.text] }

  function NewOf(e: Edit): seq<string> { if e.Del? then [] else [e.text] }

  lemma FirstEdit(body: seq<Edit>)
    requires body != []
    ensures OldLines(body) == OldOf(body[0]) + OldLines(body[1..])
            && NewLines(body) == NewOf(body[0]) + NewLines(body[1..])
  {
  }

  lemma Regroups(a: seq<string>, b: seq<string>, c: seq<string>)
    ensures a + (b + c) == a + b + c
  {
  }

  lemma {:induction false} ChangesHaveNoPairs(body: seq<Edit>, i: nat, j: nat, k: nat)
    requires k <= |body| && forall m :: 0 <= m < k ==> !body[m].Keep?
    ensures Pairs(body, i, j) == Pairs(body[k..], i + |OldLines(body[..k])|, j + |NewLines(body[..k])|)
    decreases k
  {
    hide OldLines, NewLines;
    if k == 0 {
      assert body[..0] == [] && body[0..] == body;
      NothingChanged();
    } else {
      FirstChange(body, k);
      assert body[1..][k - 1..] == body[k..];
      ChangesHaveNoPairs(body[1..], if body[0].Del? then i + 1 else i, if body[0].Del? then j else j + 1, k - 1);
    }
  }

  /** Where a hunk stands upstream and in the patched file. */
  ghost predicate HunkStands(u: seq<string>, p: seq<string>, body: seq<Edit>, i: nat, j: nat) {
    Has(u, i, OldLines(body)) && Has(p, j, NewLines(body)) && StateAt(u, i) == StateAt(p, j)
  }

  lemma FirstKept(body: seq<Edit>)
    requires body != [] && body[0].Keep?
    ensures OldLines(body) == [body[0].text] + OldLines(body[1..])
            && NewLines(body) == [body[0].text] + NewLines(body[1..])
  {
  }

  lemma LineHere(lines: seq<string>, at: nat, text: string)
    requires Has(lines, at, [text])
    ensures lines[at] == text
  {
    assert lines[at..at + 1][0] == lines[at];
  }

  lemma KeepStands(u: seq<string>, p: seq<string>, body: seq<Edit>, i: nat, j: nat)
    requires HunkStands(u, p, body, i, j) && body != [] && body[0].Keep?
    ensures Agree(u, p, i, j) && HunkStands(u, p, body[1..], i + 1, j + 1)
    ensures |OldLines(body)| == 1 + |OldLines(body[1..])| && |NewLines(body)| == 1 + |NewLines(body[1..])|
  {
    hide OldLines, NewLines, StateAt, After, Has;
    var line := [body[0].text];
    FirstKept(body);
    HasSplit(u, i, line, OldLines(body[1..]));
    HasSplit(p, j, line, NewLines(body[1..]));
    LineHere(u, i, body[0].text);
    LineHere(p, j, body[0].text);
    HasRoom(u, i, line);
    HasRoom(p, j, line);
    StateAfter(u, i, line);
    StateAfter(p, j, line);
  }

  lemma HasRoom(lines: seq<string>, at: nat, part: seq<string>)
    requires Has(lines, at, part)
    ensures at + |part| <= |lines|
  {
  }

  lemma ChangeStands(
    u: seq<string>, p: seq<string>, body: seq<Edit>, i: nat, j: nat, k: nat,
    regions: seq<Region>, rule: string -> bool, directive: string -> bool)
    requires HunkStands(u, p, body, i, j) && k <= |body|
    requires Judge(Group(i, OldLines(body[..k]), NewLines(body[..k])), u, regions, rule, directive) == NoRecord
    ensures HunkStands(u, p, body[k..], i + |OldLines(body[..k])|, j + |NewLines(body[..k])|)
  {
    hide OldLines, NewLines, StateAt, Judge, After;
    LinesSplit(body, k);
    NoRecordIsNeutral(Group(i, OldLines(body[..k]), NewLines(body[..k])), u, regions, rule, directive);
    HasSplit(u, i, OldLines(body[..k]), OldLines(body[k..]));
    HasSplit(p, j, NewLines(body[..k]), NewLines(body[k..]));
    StateAfter(u, i, OldLines(body[..k]));
    StateAfter(p, j, NewLines(body[..k]));
  }

  // ---- the lines a patch changes

  function RemovedBy(e: Edit, i: nat): seq<nat> { if e.Del? then [i] else [] }

  function AddedBy(e: Edit, i: nat, j: nat): seq<(nat, nat)> { if e.Add? then [(i, j)] else [] }

  /** The upstream places of the lines that a hunk removes. */
  function Removals(body: seq<Edit>, i: nat): seq<nat>
    decreases |body|
  {
    if body == [] then [] else RemovedBy(body[0], i) + Removals(body[1..], i + |OldOf(body[0])|)
  }

  /** The lines that a hunk adds: how many upstream lines each comes after, and its
      place in the patched file. */
  function Insertions(body: seq<Edit>, i: nat, j: nat): seq<(nat, nat)>
    decreases |body|
  {
    if body == [] then []
    else AddedBy(body[0], i, j) + Insertions(body[1..], i + |OldOf(body[0])|, j + |NewOf(body[0])|)
  }

  /** A line that m4 skips: no code in it, at parenthesis depth zero. */
  ghost predicate Skipped(lines: seq<string>, a: nat) {
    a < |lines| && StateAt(lines, a).depth == 0 && Blank(Code(lines[a], StateAt(lines, a)))
  }

  /** Of the lines of a region only skipped ones are removed, and only skipped
      ones are added inside it. */
  ghost predicate Spares(
    u: seq<string>, p: seq<string>, removals: seq<nat>, insertions: seq<(nat, nat)>, regions: seq<Region>)
  {
    && (forall k, r :: 0 <= k < |removals| && r in regions && r.first <= removals[k] + 1 <= r.last ==>
          Skipped(u, removals[k]))
    && (forall k, r :: 0 <= k < |insertions| && r in regions && r.first <= insertions[k].0 < r.last ==>
          Skipped(p, insertions[k].1))
  }

  lemma SparesTogether(
    u: seq<string>, p: seq<string>, a: seq<nat>, b: seq<(nat, nat)>, a': seq<nat>, b': seq<(nat, nat)>,
    regions: seq<Region>)
    requires Spares(u, p, a, b, regions) && Spares(u, p, a', b', regions)
    ensures Spares(u, p, a + a', b + b', regions)
  {
    hide Skipped;
  }

  lemma FirstRemoval(body: seq<Edit>, i: nat)
    requires body != []
    ensures Removals(body, i) == RemovedBy(body[0], i) + Removals(body[1..], i + |OldOf(body[0])|)
  {
    hide RemovedBy, OldOf;
  }

  lemma FirstInsertion(body: seq<Edit>, i: nat, j: nat)
    requires body != []
    ensures Insertions(body, i, j) ==
            AddedBy(body[0], i, j) + Insertions(body[1..], i + |OldOf(body[0])|, j + |NewOf(body[0])|)
  {
    hide AddedBy, OldOf, NewOf;
  }

  lemma Associates<T>(a: seq<T>, b: seq<T>, c: seq<T>)
    ensures a + (b + c) == a + b + c
  {
  }

  lemma FirstOfBoth(a: seq<Edit>, b: seq<Edit>)
    requires a != []
    ensures (a + b)[0] == a[0] && (a + b)[1..] == a[1..] + b
    ensures |OldLines(a)| == |OldOf(a[0])| + |OldLines(a[1..])| && |NewLines(a)| == |NewOf(a[0])| + |NewLines(a[1..])|
  {
    hide OldLines, NewLines;
    FirstEdit(a);
  }

  lemma {:induction false} RemovalsTogether(a: seq<Edit>, b: seq<Edit>, i: nat)
    ensures Removals(a + b, i) == Removals(a, i) + Removals(b, i + |OldLines(a)|)
    decreases |a|
  {
    hide OldLines, NewLines, RemovedBy, OldOf, NewOf;
    if a == [] {
      assert [] + b == b;
      NothingChanged();
    } else {
      hide Removals;
      FirstOfBoth(a, b);
      FirstRemoval(a, i);
      FirstRemoval(a + b, i);
      var i' := i + |OldOf(a[0])|;
      RemovalsTogether(a[1..], b, i');
      Associates(RemovedBy(a[0], i), Removals(a[1..], i'), Removals(b, i + |OldLines(a)|));
    }
  }

  lemma {:induction false} InsertionsTogether(a: seq<Edit>, b: seq<Edit>, i: nat, j: nat)
    ensures Insertions(a + b, i, j) == Insertions(a, i, j) + Insertions(b, i + |OldLines(a)|, j + |NewLines(a)|)
    decreases |a|
  {
    hide OldLines, NewLines, AddedBy, OldOf, NewOf;
    if a == [] {
      assert [] + b == b;
      NothingChanged();
    } else {
      hide Insertions;
      FirstOfBoth(a, b);
      FirstInsertion(a, i, j);
      FirstInsertion(a + b, i, j);
      var i', j' := i + |OldOf(a[0])|, j + |NewOf(a[0])|;
      InsertionsTogether(a[1..], b, i', j');
      Associates(AddedBy(a[0], i, j), Insertions(a[1..], i', j'), Insertions(b, i + |OldLines(a)|, j + |NewLines(a)|));
    }
  }

  lemma {:induction false} ChangesInside(body: seq<Edit>, i: nat, j: nat)
    ensures forall a :: a in Removals(body, i) ==> i <= a < i + |OldLines(body)|
    ensures forall x :: x in Insertions(body, i, j) ==>
              i <= x.0 <= i + |OldLines(body)| && j <= x.1 < j + |NewLines(body)|
    decreases |body|
  {
    if body != [] { ChangesInside(body[1..], i + |OldOf(body[0])|, j + |NewOf(body[0])|); }
  }

  lemma {:induction false} BlankEach(lines: seq<string>, s: Lex, m: nat)
    requires AllBlank(Codes(lines, s)) && m < |lines|
    ensures After(lines[..m], s) == s && Blank(Code(lines[m], s))
    decreases |lines|
  {
    hide Code, Through, Blank;
    var codes := Codes(lines, s);
    assert codes[0] == Code(lines[0], s) && codes[1..] == Codes(lines[1..], Through(lines[0], s));
    BlankLine(lines[0], s);
    if m > 0 {
      assert forall k :: 0 <= k < |codes[1..]| ==> codes[1..][k] == codes[k + 1];
      BlankEach(lines[1..], s, m - 1);
      assert lines[..m][0] == lines[0] && lines[..m][1..] == lines[1..][..m - 1];
    }
  }

  /** Blank lines that stand in a file are skipped there. */
  lemma BlankStand(lines: seq<string>, at: nat, part: seq<string>, a: nat)
    requires Has(lines, at, part) && at <= a < at + |part|
    requires AllBlank(Codes(part, StateAt(lines, at))) && StateAt(lines, at).depth == 0
    ensures Skipped(lines, a)
  {
    hide Codes, AllBlank, Blank, After, Has, Code;
    var m := a - at;
    HasRoom(lines, at, part);
    BlankEach(part, StateAt(lines, at), m);
    HasAt(lines, at, part, m);
    StateAfter(lines, at, part[..m]);
  }

  lemma HasAt(lines: seq<string>, at: nat, part: seq<string>, m: nat)
    requires Has(lines, at, part) && m < |part|
    ensures at + m < |lines| && lines[at + m] == part[m] && Has(lines, at, part[..m])
  {
    assert lines[at..at + |part|][m] == lines[at + m];
    assert part[..m] == lines[at..at + |part|][..m] == lines[at..at + m];
  }

  /** A change that touches a region and needs no record is of skipped lines. */
  lemma TouchedIsBlank(
    g: Group, lines: seq<string>, regions: seq<Region>, rule: string -> bool, directive: string -> bool, r: Region)
    requires Judge(g, lines, regions, rule, directive) == NoRecord && r in regions && Touches(g, r)
    ensures g.position <= |lines|
    ensures var start := StateAt(lines, g.position);
            start.depth == 0 && AllBlank(Codes(g.removed, start)) && AllBlank(Codes(g.added, start))
  {
    hide Codes, LinesLeave, Balanced, StateAt, After, Blank;
    var start := StateAt(lines, g.position);
    var removed, added := Codes(g.removed, start), Codes(g.added, start);
    assert forall i :: 0 <= i < |removed| ==> (removed + added)[i] == removed[i];
    assert forall i :: 0 <= i < |added| ==> (removed + added)[|removed| + i] == added[i];
    var k :| 0 <= k < |regions| && regions[k] == r;
    assert FirstTouched(g, regions) <= k;
  }

  lemma ChangeSpares(
    u: seq<string>, p: seq<string>, change: seq<Edit>, i: nat, j: nat,
    regions: seq<Region>, rule: string -> bool, directive: string -> bool)
    requires Has(u, i, OldLines(change)) && Has(p, j, NewLines(change)) && StateAt(u, i) == StateAt(p, j)
    requires Judge(Group(i, OldLines(change), NewLines(change)), u, regions, rule, directive) == NoRecord
    ensures Spares(u, p, Removals(change, i), Insertions(change, i, j), regions)
  {
    hide OldLines, NewLines, StateAt, Judge, After, Codes, AllBlank, Skipped, Has, Removals, Insertions;
    var g := Group(i, OldLines(change), NewLines(change));
    HasRoom(u, i, g.removed);
    HasRoom(p, j, g.added);
    ChangesInside(change, i, j);
    var removals, insertions := Removals(change, i), Insertions(change, i, j);
    forall k, r | 0 <= k < |removals| && r in regions && r.first <= removals[k] + 1 <= r.last
      ensures Skipped(u, removals[k])
    {
      assert removals[k] in removals;
      TouchedIsBlank(g, u, regions, rule, directive, r);
      BlankStand(u, i, g.removed, removals[k]);
    }
    forall k, r | 0 <= k < |insertions| && r in regions && r.first <= insertions[k].0 < r.last
      ensures Skipped(p, insertions[k].1)
    {
      assert insertions[k] in insertions;
      TouchedIsBlank(g, u, regions, rule, directive, r);
      BlankStand(p, j, g.added, insertions[k].1);
    }
  }

  /** The first run of changes of a hunk, and what follows it. */
  lemma RunSpares(
    u: seq<string>, p: seq<string>, body: seq<Edit>, i: nat, j: nat, k: nat,
    regions: seq<Region>, rule: string -> bool, directive: string -> bool)
    requires HunkStands(u, p, body, i, j) && k <= |body|
    requires Judge(Group(i, OldLines(body[..k]), NewLines(body[..k])), u, regions, rule, directive) == NoRecord
    requires var o, n := |OldLines(body[..k])|, |NewLines(body[..k])|;
             Spares(u, p, Removals(body[k..], i + o), Insertions(body[k..], i + o, j + n), regions)
    ensures Spares(u, p, Removals(body, i), Insertions(body, i, j), regions)
  {
    hide OldLines, NewLines, StateAt, Judge, Has, Removals, Insertions, Spares;
    LinesSplit(body, k);
    HasSplit(u, i, OldLines(body[..k]), OldLines(body[k..]));
    HasSplit(p, j, NewLines(body[..k]), NewLines(body[k..]));
    ChangeSpares(u, p, body[..k], i, j, regions, rule, directive);
    assert body == body[..k] + body[k..];
    RemovalsTogether(body[..k], body[k..], i);
    InsertionsTogether(body[..k], body[k..], i, j);
    var o, n := |OldLines(body[..k])|, |NewLines(body[..k])|;
    SparesTogether(u, p, Removals(body[..k], i), Insertions(body[..k], i, j),
                   Removals(body[k..], i + o), Insertions(body[k..], i + o, j + n), regions);
  }

  lemma {:induction false} HunkSpares(
    u: seq<string>, p: seq<string>, body: seq<Edit>, i: nat, j: nat,
    regions: seq<Region>, rule: string -> bool, directive: string -> bool)
    requires HunkStands(u, p, body, i, j) && NeedsNone(Groups(body, i), u, regions, rule, directive)
    ensures Spares(u, p, Removals(body, i), Insertions(body, i, j), regions)
    decreases |body|
  {
    hide OldLines, NewLines, StateAt, Judge, Groups, Has, After;
    if body == [] {
    } else if body[0].Keep? {
      KeepStands(u, p, body, i, j);
      GroupsPastKeep(body, i);
      HunkSpares(u, p, body[1..], i + 1, j + 1, regions, rule, directive);
      KeepChangesNothing(body, i, j);
    } else {
      var k := ChangeRun(body);
      GroupsPastChange(body, i, u, regions, rule, directive);
      ChangeStands(u, p, body, i, j, k, regions, rule, directive);
      HunkSpares(u, p, body[k..], i + |OldLines(body[..k])|, j + |NewLines(body[..k])|, regions, rule, directive);
      RunSpares(u, p, body, i, j, k, regions, rule, directive);
    }
  }

  lemma KeepChangesNothing(body: seq<Edit>, i: nat, j: nat)
    requires body != [] && body[0].Keep?
    ensures Removals(body, i) == Removals(body[1..], i + 1)
    ensures Insertions(body, i, j) == Insertions(body[1..], i + 1, j + 1)
  {
    hide Removals, Insertions;
    FirstRemoval(body, i);
    FirstInsertion(body, i, j);
    assert [] + Removals(body[1..], i + 1) == Removals(body[1..], i + 1);
    assert [] + Insertions(body[1..], i + 1, j + 1) == Insertions(body[1..], i + 1, j + 1);
  }

  lemma {:induction false} HunkKeeps(
    u: seq<string>, p: seq<string>, body: seq<Edit>, i: nat, j: nat,
    regions: seq<Region>, rule: string -> bool, directive: string -> bool)
    requires HunkStands(u, p, body, i, j) && NeedsNone(Groups(body, i), u, regions, rule, directive)
    ensures AllAgree(u, p, Pairs(body, i, j))
    ensures StateAt(u, i + |OldLines(body)|) == StateAt(p, j + |NewLines(body)|)
    decreases |body|
  {
    hide OldLines, NewLines, StateAt, Judge, Groups, Has, After, AllAgree, Agree, NeedsNone;
    HunkRoom(u, p, body, i, j);
    if body == [] {
      NothingChanged();
      NoneAgree(u, p);
    } else if body[0].Keep? {
      KeepStands(u, p, body, i, j);
      GroupsPastKeep(body, i);
      HunkKeeps(u, p, body[1..], i + 1, j + 1, regions, rule, directive);
      FirstAgrees(u, p, (i, j), Pairs(body[1..], i + 1, j + 1));
    } else {
      var k := ChangeRun(body);
      GroupsPastChange(body, i, u, regions, rule, directive);
      ChangeStands(u, p, body, i, j, k, regions, rule, directive);
      ChangesHaveNoPairs(body, i, j, k);
      LinesSplit(body, k);
      HunkKeeps(u, p, body[k..], i + |OldLines(body[..k])|, j + |NewLines(body[..k])|, regions, rule, directive);
    }
  }

  lemma HunkRoom(u: seq<string>, p: seq<string>, body: seq<Edit>, i: nat, j: nat)
    requires HunkStands(u, p, body, i, j)
    ensures i + |OldLines(body)| <= |u| && j + |NewLines(body)| <= |p|
  {
  }

  lemma NoneAgree(u: seq<string>, p: seq<string>)
    ensures AllAgree(u, p, [])
  {
  }

  lemma FirstAgrees(u: seq<string>, p: seq<string>, first: (nat, nat), rest: seq<(nat, nat)>)
    requires Agree(u, p, first.0, first.1) && AllAgree(u, p, rest)
    ensures AllAgree(u, p, [first] + rest)
  {
  }

  lemma GroupsPastKeep(body: seq<Edit>, i: nat)
    requires body != [] && body[0].Keep?
    ensures Groups(body, i) == Groups(body[1..], i + 1)
  {
  }

  lemma GroupsPastChange(
    body: seq<Edit>, i: nat, u: seq<string>, regions: seq<Region>, rule: string -> bool, directive: string -> bool)
    requires body != [] && !body[0].Keep? && NeedsNone(Groups(body, i), u, regions, rule, directive)
    ensures var k := ChangeRun(body);
            && Judge(Group(i, OldLines(body[..k]), NewLines(body[..k])), u, regions, rule, directive) == NoRecord
            && NeedsNone(Groups(body[k..], i + |OldLines(body[..k])|), u, regions, rule, directive)
  {
    hide OldLines, NewLines, Judge;
    var k := ChangeRun(body);
    var groups := Groups(body, i);
    var rest := Groups(body[k..], i + |OldLines(body[..k])|);
    assert groups[0] == Group(i, OldLines(body[..k]), NewLines(body[..k])) && groups[1..] == rest;
    assert forall m :: 0 <= m < |rest| ==> rest[m] == groups[m + 1];
  }

  /** Lines that follow each other on both sides. */
  function Spread(i: nat, j: nat, n: nat): seq<(nat, nat)> { seq(n, k => (i + k, j + k)) }

  /** The places of all unchanged lines, from a place in the upstream file and
      the length of what has been made of it so far. */
  function KeptPairs(u: seq<string>, hunks: seq<Hunk>, position: nat, made: nat): seq<(nat, nat)>
    decreases |hunks|
  {
    if hunks == [] then Spread(position, made, if position < |u| then |u| - position else 0)
    else if Start(hunks[0]) < position then []
    else
      var h := hunks[0];
      var n := |Slice(u, position, Start(h))|;
      Spread(position, made, n)
      + (Pairs(h.body, Start(h), made + n) + KeptPairs(u, hunks[1..], Start(h) + |h.oldLines|, made + n + |h.newLines|))
  }

  predicate BodyMatches(h: Hunk) { h.oldLines == OldLines(h.body) && h.newLines == NewLines(h.body) }

  /** Every change of every hunk is judged to need no record. */
  ghost predicate PatchNeedsNone(hunks: seq<Hunk>, u: seq<string>, regions: seq<Region>, rule: string -> bool,
      directive: string -> bool) {
    forall k :: 0 <= k < |hunks| ==>
      BodyMatches(hunks[k]) && (Start(hunks[k]) >= 0 ==>
        NeedsNone(Groups(hunks[k].body, Start(hunks[k])), u, regions, rule, directive))
  }

  lemma {:induction false} SpreadAgrees(u: seq<string>, p: seq<string>, part: seq<string>, i: nat, j: nat)
    requires Has(u, i, part) && Has(p, j, part) && StateAt(u, i) == StateAt(p, j)
    ensures AllAgree(u, p, Spread(i, j, |part|)) && StateAt(u, i + |part|) == StateAt(p, j + |part|)
  {
    hide StateAt, After;
    var pairs := Spread(i, j, |part|);
    forall k | 0 <= k < |pairs|
      ensures Agree(u, p, pairs[k].0, pairs[k].1)
    {
      assert part == part[..k] + part[k..];
      HasSplit(u, i, part[..k], part[k..]);
      HasSplit(p, j, part[..k], part[k..]);
      StateAfter(u, i, part[..k]);
      StateAfter(p, j, part[..k]);
      assert u[i..i + |part|][k] == u[i + k] && p[j..j + |part|][k] == p[j + k];
    }
    StateAfter(u, i, part);
    StateAfter(p, j, part);
  }

  function Min(a: nat, b: nat): nat { if a < b then a else b }

  lemma SliceStands(u: seq<string>, position: nat, start: nat)
    requires position <= start
    ensures Has(u, Min(position, |u|), Slice(u, position, start))
    ensures Min(position, |u|) + |Slice(u, position, start)| == Min(start, |u|)
    ensures Slice(u, position, start) != [] ==> position < |u|
  {
  }

  lemma PrefixStands(p: seq<string>, a: seq<string>, b: seq<string>)
    requires a + b <= p
    ensures Has(p, |a|, b) && p[..|a|] == a
  {
    assert p[..|a + b|] == a + b;
    assert p[|a|..|a| + |b|] == (a + b)[|a|..];
  }

  lemma PrefixOfPrefix(a: seq<string>, b: seq<string>, p: seq<string>)
    requires a + b <= p
    ensures a <= p
  {
    assert a <= a + b;
  }

  /** A hunk past the end can only add, and its addition has no place to be judged at. */
  lemma LateNeedsRecord(
    h: Hunk, u: seq<string>, position: nat, regions: seq<Region>, rule: string -> bool, directive: string -> bool)
    requires BodyMatches(h) && Start(h) > |u| && Stands(u, h, position) && h.body != []
    ensures !NeedsNone(Groups(h.body, Start(h)), u, regions, rule, directive)
  {
    assert h.oldLines == [];
    var g := Groups(h.body, Start(h))[0];
    assert g.position == Start(h);
    assert Judge(g, u, regions, rule, directive) == NoSuchPlace;
  }

  /** Where both sides have got to, in the same state. */
  ghost predicate InStep(u: seq<string>, position: nat, out: seq<string>) {
    StateAt(u, Min(position, |u|)) == After(out, TOP)
  }

  lemma UpToHunk(u: seq<string>, p: seq<string>, position: nat, start: nat, out: seq<string>)
    requires position <= start && InStep(u, position, out) && out + Slice(u, position, start) <= p
    ensures AllAgree(u, p, Spread(position, |out|, |Slice(u, position, start)|))
    ensures InStep(u, start, out + Slice(u, position, start))
  {
    hide After, Slice;
    var part := Slice(u, position, start);
    SliceStands(u, position, start);
    PrefixStands(p, out, part);
    SpreadAgrees(u, p, part, Min(position, |u|), |out|);
    assert part == [] || Min(position, |u|) == position;
    StateOfPrefix(p, out + part);
  }

  lemma StateOfPrefix(p: seq<string>, a: seq<string>)
    requires a <= p
    ensures StateAt(p, |a|) == After(a, TOP)
  {
    assert p[..|a|] == a;
  }

  lemma StandsThere(u: seq<string>, h: Hunk, position: nat)
    requires Stands(u, h, position) && Start(h) <= |u|
    ensures Has(u, Start(h), h.oldLines)
  {
  }

  /** A hunk inside the file. */
  lemma ThroughEarly(
    u: seq<string>, p: seq<string>, h: Hunk, position: nat, kept: seq<string>,
    regions: seq<Region>, rule: string -> bool, directive: string -> bool)
    requires BodyMatches(h) && Stands(u, h, position) && InStep(u, Start(h), kept) && kept + h.newLines <= p
    requires NeedsNone(Groups(h.body, Start(h)), u, regions, rule, directive) && Start(h) <= |u|
    ensures AllAgree(u, p, Pairs(h.body, Start(h), |kept|))
    ensures InStep(u, Start(h) + |h.oldLines|, kept + h.newLines)
  {
    hide After, OldLines, NewLines, NeedsNone, Stands, Has, StateAt, AllAgree;
    StandsThere(u, h, position);
    HasRoom(u, Start(h), h.oldLines);
    PrefixStands(p, kept, h.newLines);
    assert kept <= kept + h.newLines;
    StateOfPrefix(p, kept);
    StateOfPrefix(p, kept + h.newLines);
    HunkKeeps(u, p, h.body, Start(h), |kept|, regions, rule, directive);
  }

  lemma ThroughHunk(
    u: seq<string>, p: seq<string>, h: Hunk, position: nat, kept: seq<string>,
    regions: seq<Region>, rule: string -> bool, directive: string -> bool)
    requires BodyMatches(h) && Stands(u, h, position) && InStep(u, Start(h), kept) && kept + h.newLines <= p
    requires NeedsNone(Groups(h.body, Start(h)), u, regions, rule, directive)
    ensures AllAgree(u, p, Pairs(h.body, Start(h), |kept|))
    ensures InStep(u, Start(h) + |h.oldLines|, kept + h.newLines)
  {
    hide After, OldLines, NewLines, NeedsNone, Stands, StateAt;
    if Start(h) <= |u| {
      ThroughEarly(u, p, h, position, kept, regions, rule, directive);
    } else {
      if h.body != [] { LateNeedsRecord(h, u, position, regions, rule, directive); }
      NothingChanged();
      assert kept + [] == kept;
    }
  }

  lemma {:induction false} KeepsInStep(
    u: seq<string>, hunks: seq<Hunk>, position: nat, out: seq<string>,
    regions: seq<Region>, rule: string -> bool, directive: string -> bool)
    requires ApplyFrom(u, hunks, position, out).Some? && InStep(u, position, out)
    requires PatchNeedsNone(hunks, u, regions, rule, directive)
    ensures AllAgree(u, ApplyFrom(u, hunks, position, out).value, KeptPairs(u, hunks, position, |out|))
    decreases |hunks|
  {
    hide ApplyFrom, Slice, InStep, NeedsNone, KeptPairs, Spread, Pairs, AllAgree, PatchNeedsNone;
    var p := ApplyFrom(u, hunks, position, out).value;
    if hunks == [] {
      TailKept(u, position, out);
    } else {
      var h := hunks[0];
      FirstApplied(u, hunks, position, out);
      FirstNeedsNone(hunks, u, regions, rule, directive);
      FirstPairs(u, hunks, position, |out|);
      var part := Slice(u, position, Start(h));
      var kept := out + part;
      ApplyKeeps(u, hunks[1..], Start(h) + |h.oldLines|, kept + h.newLines);
      assert kept <= kept + h.newLines;
      UpToHunk(u, p, position, Start(h), out);
      ThroughHunk(u, p, h, position, kept, regions, rule, directive);
      KeepsInStep(u, hunks[1..], Start(h) + |h.oldLines|, kept + h.newLines, regions, rule, directive);
      AgreeTogether(u, p, Spread(position, |out|, |part|), Pairs(h.body, Start(h), |kept|),
                    KeptPairs(u, hunks[1..], Start(h) + |h.oldLines|, |kept + h.newLines|));
    }
  }

  lemma FirstNeedsNone(
    hunks: seq<Hunk>, u: seq<string>, regions: seq<Region>, rule: string -> bool, directive: string -> bool)
    requires hunks != [] && PatchNeedsNone(hunks, u, regions, rule, directive)
    ensures BodyMatches(hunks[0]) && PatchNeedsNone(hunks[1..], u, regions, rule, directive)
    ensures Start(hunks[0]) >= 0 ==> NeedsNone(Groups(hunks[0].body, Start(hunks[0])), u, regions, rule, directive)
  {
    hide NeedsNone, BodyMatches;
    assert forall k :: 0 <= k < |hunks[1..]| ==> hunks[1..][k] == hunks[k + 1];
  }

  lemma FirstPairs(u: seq<string>, hunks: seq<Hunk>, position: nat, made: nat)
    requires hunks != [] && Start(hunks[0]) >= position
    ensures var h := hunks[0];
            var n := |Slice(u, position, Start(h))|;
            KeptPairs(u, hunks, position, made) ==
            Spread(position, made, n)
            + (Pairs(h.body, Start(h), made + n)
              + KeptPairs(u, hunks[1..], Start(h) + |h.oldLines|, made + n + |h.newLines|))
  {
  }

  lemma TailKept(u: seq<string>, position: nat, out: seq<string>)
    requires InStep(u, position, out)
    ensures ApplyFrom(u, [], position, out).Some?
    ensures AllAgree(u, ApplyFrom(u, [], position, out).value, KeptPairs(u, [], position, |out|))
  {
    var start := if position < |u| then |u| else position;
    UpToHunk(u, ApplyFrom(u, [], position, out).value, position, start, out);
  }

  lemma AgreeTogether(u: seq<string>, p: seq<string>, a: seq<(nat, nat)>, b: seq<(nat, nat)>, c: seq<(nat, nat)>)
    requires AllAgree(u, p, a) && AllAgree(u, p, b) && AllAgree(u, p, c)
    ensures AllAgree(u, p, a + (b + c))
  {
  }

  /** If every change of a patch is judged to need no record, then every line the
      patch keeps starts in the same m4 state in the patched file as upstream, and
      has the same code without comments. */
  lemma UnrecordedChangesKeepM4(
    u: seq<string>, hunks: seq<Hunk>, regions: seq<Region>, rule: string -> bool, directive: string -> bool)
    requires Apply(u, hunks).Some? && PatchNeedsNone(hunks, u, regions, rule, directive)
    ensures var p := Apply(u, hunks).value;
            forall k :: 0 <= k < |KeptPairs(u, hunks, 0, 0)| ==>
              var (a, b) := KeptPairs(u, hunks, 0, 0)[k];
              && a < |u| && b < |p| && u[a] == p[b] && StateAt(u, a) == StateAt(p, b)
              && Code(u[a], StateAt(u, a)) == Code(p[b], StateAt(p, b))
  {
    hide ApplyFrom, KeptPairs, NeedsNone;
    assert u[..0] == [];
    KeepsInStep(u, hunks, 0, [], regions, rule, directive);
  }

  /** The upstream places of all the lines that a patch removes. */
  function PatchRemovals(hunks: seq<Hunk>): seq<nat> {
    if hunks == [] then []
    else (if Start(hunks[0]) >= 0 then Removals(hunks[0].body, Start(hunks[0])) else []) + PatchRemovals(hunks[1..])
  }

  /** All the lines that a patch adds, as Insertions gives them. */
  function PatchInsertions(u: seq<string>, hunks: seq<Hunk>, position: nat, made: nat): seq<(nat, nat)>
    decreases |hunks|
  {
    if hunks == [] || Start(hunks[0]) < position then []
    else
      var h := hunks[0];
      var n := |Slice(u, position, Start(h))|;
      Insertions(h.body, Start(h), made + n)
      + PatchInsertions(u, hunks[1..], Start(h) + |h.oldLines|, made + n + |h.newLines|)
  }

  lemma EarlySpares(
    u: seq<string>, p: seq<string>, h: Hunk, position: nat, kept: seq<string>,
    regions: seq<Region>, rule: string -> bool, directive: string -> bool)
    requires BodyMatches(h) && Stands(u, h, position) && InStep(u, Start(h), kept) && kept + h.newLines <= p
    requires NeedsNone(Groups(h.body, Start(h)), u, regions, rule, directive) && Start(h) <= |u|
    ensures Spares(u, p, Removals(h.body, Start(h)), Insertions(h.body, Start(h), |kept|), regions)
  {
    hide After, OldLines, NewLines, NeedsNone, Stands, Has, StateAt, Spares;
    StandsThere(u, h, position);
    HasRoom(u, Start(h), h.oldLines);
    PrefixStands(p, kept, h.newLines);
    assert kept <= kept + h.newLines;
    StateOfPrefix(p, kept);
    HunkSpares(u, p, h.body, Start(h), |kept|, regions, rule, directive);
  }

  lemma HunkOfPatchSpares(
    u: seq<string>, p: seq<string>, h: Hunk, position: nat, kept: seq<string>,
    regions: seq<Region>, rule: string -> bool, directive: string -> bool)
    requires BodyMatches(h) && Stands(u, h, position) && InStep(u, Start(h), kept) && kept + h.newLines <= p
    requires NeedsNone(Groups(h.body, Start(h)), u, regions, rule, directive)
    ensures Spares(u, p, Removals(h.body, Start(h)), Insertions(h.body, Start(h), |kept|), regions)
  {
    hide After, OldLines, NewLines, NeedsNone, Stands, StateAt;
    if Start(h) <= |u| {
      EarlySpares(u, p, h, position, kept, regions, rule, directive);
    } else if h.body != [] {
      LateNeedsRecord(h, u, position, regions, rule, directive);
    }
  }

  lemma FirstChanges(u: seq<string>, hunks: seq<Hunk>, position: nat, made: nat)
    requires hunks != [] && Start(hunks[0]) >= position
    ensures var h := hunks[0];
            var n := |Slice(u, position, Start(h))|;
            && PatchRemovals(hunks) == Removals(h.body, Start(h)) + PatchRemovals(hunks[1..])
            && PatchInsertions(u, hunks, position, made) ==
               Insertions(h.body, Start(h), made + n)
               + PatchInsertions(u, hunks[1..], Start(h) + |h.oldLines|, made + n + |h.newLines|)
  {
  }

  lemma {:induction false} SparesInStep(
    u: seq<string>, hunks: seq<Hunk>, position: nat, out: seq<string>,
    regions: seq<Region>, rule: string -> bool, directive: string -> bool)
    requires ApplyFrom(u, hunks, position, out).Some? && InStep(u, position, out)
    requires PatchNeedsNone(hunks, u, regions, rule, directive)
    ensures Spares(u, ApplyFrom(u, hunks, position, out).value,
                   PatchRemovals(hunks), PatchInsertions(u, hunks, position, |out|), regions)
    decreases |hunks|
  {
    hide ApplyFrom, Slice, InStep, NeedsNone, Spares, Removals, Insertions, PatchNeedsNone, Stands;
    var p := ApplyFrom(u, hunks, position, out).value;
    if hunks == [] {
      NothingSpares(u, p, regions);
    } else {
      hide PatchRemovals, PatchInsertions;
      var h := hunks[0];
      FirstApplied(u, hunks, position, out);
      FirstNeedsNone(hunks, u, regions, rule, directive);
      StandsLater(u, h, position);
      FirstChanges(u, hunks, position, |out|);
      var part := Slice(u, position, Start(h));
      var kept := out + part;
      ApplyKeeps(u, hunks[1..], Start(h) + |h.oldLines|, kept + h.newLines);
      PrefixOfPrefix(kept, h.newLines, p);
      UpToHunk(u, p, position, Start(h), out);
      ThroughHunk(u, p, h, position, kept, regions, rule, directive);
      HunkOfPatchSpares(u, p, h, position, kept, regions, rule, directive);
      SparesInStep(u, hunks[1..], Start(h) + |h.oldLines|, kept + h.newLines, regions, rule, directive);
      SparesTogether(u, p, Removals(h.body, Start(h)), Insertions(h.body, Start(h), |kept|), PatchRemovals(hunks[1..]),
                     PatchInsertions(u, hunks[1..], Start(h) + |h.oldLines|, |kept + h.newLines|), regions);
    }
  }

  lemma NothingSpares(u: seq<string>, p: seq<string>, regions: seq<Region>)
    ensures Spares(u, p, [], [], regions)
  {
  }

  /** If no change of a patch needs a record, then of the lines of any region, a
      statement or a definition, it removes only such as m4 skips at the top level,
      and inside one it adds only such. */
  lemma UnrecordedChangesSpareRegions(
    u: seq<string>, hunks: seq<Hunk>, regions: seq<Region>, rule: string -> bool, directive: string -> bool)
    requires Apply(u, hunks).Some? && PatchNeedsNone(hunks, u, regions, rule, directive)
    ensures Spares(u, Apply(u, hunks).value, PatchRemovals(hunks), PatchInsertions(u, hunks, 0, 0), regions)
    ensures |PatchRemovals(hunks)| == AllRemoved(hunks) && |PatchInsertions(u, hunks, 0, 0)| == AllAdded(hunks)
  {
    hide ApplyFrom, PatchRemovals, PatchInsertions, NeedsNone, Spares;
    assert u[..0] == [];
    SparesInStep(u, hunks, 0, [], regions, rule, directive);
    ChangesCount(u, hunks, 0, []);
  }

  lemma {:induction false} BodyChanges(body: seq<Edit>, i: nat, j: nat)
    ensures |Removals(body, i)| == Removed(body) && |Insertions(body, i, j)| == Added(body)
    decreases |body|
  {
    if body != [] {
      hide Removals, Insertions;
      BodyChanges(body[1..], i + |OldOf(body[0])|, j + |NewOf(body[0])|);
      FirstRemoval(body, i);
      FirstInsertion(body, i, j);
    }
  }

  /** Every removed and every added line is among them. */
  lemma {:induction false} ChangesCount(u: seq<string>, hunks: seq<Hunk>, position: nat, out: seq<string>)
    requires ApplyFrom(u, hunks, position, out).Some?
    ensures |PatchRemovals(hunks)| == AllRemoved(hunks)
    ensures |PatchInsertions(u, hunks, position, |out|)| == AllAdded(hunks)
    decreases |hunks|
  {
    hide ApplyFrom, Removals, Insertions, Removed, Added, Stands, Slice;
    if hunks != [] {
      var h := hunks[0];
      FirstApplied(u, hunks, position, out);
      StandsLater(u, h, position);
      FirstChanges(u, hunks, position, |out|);
      var kept := out + Slice(u, position, Start(h));
      BodyChanges(h.body, Start(h), |kept|);
      ChangesCount(u, hunks[1..], Start(h) + |h.oldLines|, kept + h.newLines);
    }
  }

  function Removed(body: seq<Edit>): nat {
    if body == [] then 0 else (if body[0].Del? then 1 else 0) + Removed(body[1..])
  }

  function Added(body: seq<Edit>): nat {
    if body == [] then 0 else (if body[0].Add? then 1 else 0) + Added(body[1..])
  }

  function AllRemoved(hunks: seq<Hunk>): nat {
    if hunks == [] then 0 else Removed(hunks[0].body) + AllRemoved(hunks[1..])
  }

  function AllAdded(hunks: seq<Hunk>): nat {
    if hunks == [] then 0 else Added(hunks[0].body) + AllAdded(hunks[1..])
  }

  lemma {:induction false} PairsCount(body: seq<Edit>, i: nat, j: nat)
    ensures |Pairs(body, i, j)| + Removed(body) == |OldLines(body)|
    ensures |Pairs(body, i, j)| + Added(body) == |NewLines(body)|
    decreases |body|
  {
    if body != [] {
      PairsCount(body[1..], if body[0].Add? then i else i + 1, if body[0].Del? then j else j + 1);
    }
  }

  lemma {:induction false} KeptCount(u: seq<string>, hunks: seq<Hunk>, position: nat, out: seq<string>)
    requires ApplyFrom(u, hunks, position, out).Some? && position <= |u| && Patch.Inside(u, hunks)
    requires forall k :: 0 <= k < |hunks| ==> BodyMatches(hunks[k])
    ensures |KeptPairs(u, hunks, position, |out|)| + AllRemoved(hunks) == |u| - position
    ensures |KeptPairs(u, hunks, position, |out|)| + AllAdded(hunks) ==
            |ApplyFrom(u, hunks, position, out).value| - |out|
    decreases |hunks|
  {
    hide OldLines, NewLines, Pairs, Removed, Added, ApplyFrom, KeptPairs;
    if hunks == [] {
      TailCount(u, position, out);
    } else {
      var h := hunks[0];
      FirstApplied(u, hunks, position, out);
      FirstPairs(u, hunks, position, |out|);
      InsideRest(u, hunks);
      LeadsBack(u, h, position);
      var kept := out + Slice(u, position, Start(h));
      PairsCount(h.body, Start(h), |kept|);
      KeptCount(u, hunks[1..], Start(h) + |h.oldLines|, kept + h.newLines);
    }
  }

  lemma TailCount(u: seq<string>, position: nat, out: seq<string>)
    requires position <= |u|
    ensures |KeptPairs(u, [], position, |out|)| == |u| - position
    ensures ApplyFrom(u, [], position, out).Some? && |ApplyFrom(u, [], position, out).value| == |out| + |u| - position
  {
  }

  /** Pairs of places that rise on both sides, within these bounds. */
  ghost predicate Rising(pairs: seq<(nat, nat)>, i: nat, j: nat, i': nat, j': nat) {
    && (forall k :: 0 <= k < |pairs| ==> i <= pairs[k].0 < i' && j <= pairs[k].1 < j')
    && (forall k, l :: 0 <= k < l < |pairs| ==> pairs[k].0 < pairs[l].0 && pairs[k].1 < pairs[l].1)
  }

  /** Each pair is one line, that stands in both files. */
  ghost predicate SameLines(u: seq<string>, p: seq<string>, pairs: seq<(nat, nat)>) {
    forall k :: 0 <= k < |pairs| ==> pairs[k].0 < |u| && pairs[k].1 < |p| && u[pairs[k].0] == p[pairs[k].1]
  }

  lemma RisingTogether(a: seq<(nat, nat)>, b: seq<(nat, nat)>, i: nat, j: nat, m: nat, n: nat, i': nat, j': nat)
    requires Rising(a, i, j, m, n) && Rising(b, m, n, i', j') && i <= m <= i' && j <= n <= j'
    ensures Rising(a + b, i, j, i', j')
  {
  }

  lemma SameTogether(u: seq<string>, p: seq<string>, a: seq<(nat, nat)>, b: seq<(nat, nat)>)
    requires SameLines(u, p, a) && SameLines(u, p, b)
    ensures SameLines(u, p, a + b)
  {
  }

  lemma {:induction false} PairsRise(body: seq<Edit>, i: nat, j: nat)
    ensures Rising(Pairs(body, i, j), i, j, i + |OldLines(body)|, j + |NewLines(body)|)
    decreases |body|
  {
    if body != [] {
      var i', j' := if body[0].Add? then i else i + 1, if body[0].Del? then j else j + 1;
      PairsRise(body[1..], i', j');
      if body[0].Keep? {
        RisingTogether([(i, j)], Pairs(body[1..], i', j'), i, j, i', j', i + |OldLines(body)|, j + |NewLines(body)|);
      }
    }
  }

  lemma {:induction false} PairsSame(u: seq<string>, p: seq<string>, body: seq<Edit>, i: nat, j: nat)
    requires Has(u, i, OldLines(body)) && Has(p, j, NewLines(body))
    ensures SameLines(u, p, Pairs(body, i, j))
    decreases |body|
  {
    if body != [] {
      var i', j' := if body[0].Add? then i else i + 1, if body[0].Del? then j else j + 1;
      if !body[0].Add? { HasFirst(u, i, OldLines(body)); }
      if !body[0].Del? { HasFirst(p, j, NewLines(body)); }
      assert OldLines(body[1..]) == if body[0].Add? then OldLines(body) else OldLines(body)[1..];
      assert NewLines(body[1..]) == if body[0].Del? then NewLines(body) else NewLines(body)[1..];
      PairsSame(u, p, body[1..], i', j');
      if body[0].Keep? { SameTogether(u, p, [(i, j)], Pairs(body[1..], i', j')); }
    }
  }

  lemma HasFirst(lines: seq<string>, at: nat, part: seq<string>)
    requires Has(lines, at, part) && part != []
    ensures lines[at] == part[0] && Has(lines, at + 1, part[1..])
  {
    assert lines[at..at + |part|][0] == lines[at];
    assert lines[at + 1..at + |part|] == lines[at..at + |part|][1..];
  }

  lemma SpreadFits(u: seq<string>, p: seq<string>, part: seq<string>, i: nat, j: nat)
    requires Has(u, i, part) && Has(p, j, part)
    ensures Rising(Spread(i, j, |part|), i, j, i + |part|, j + |part|)
    ensures SameLines(u, p, Spread(i, j, |part|))
  {
    var pairs := Spread(i, j, |part|);
    forall k | 0 <= k < |pairs|
      ensures pairs[k].0 < |u| && pairs[k].1 < |p| && u[pairs[k].0] == p[pairs[k].1]
    {
      assert u[i..i + |part|][k] == p[j..j + |part|][k];
    }
  }

  /** A text starts with what is done, the lines up to a hunk and its new lines. */
  predicate StartsAs(p: seq<string>, out: seq<string>, part: seq<string>, more: seq<string>) {
    out + part + more <= p
  }

  lemma StartStands(p: seq<string>, out: seq<string>, part: seq<string>, more: seq<string>)
    requires StartsAs(p, out, part, more)
    ensures Has(p, |out|, part) && Has(p, |out| + |part|, more)
  {
    assert out + part <= out + part + more;
    PrefixStands(p, out, part);
    PrefixStands(p, out + part, more);
  }

  /** What the lines before a hunk keep. */
  lemma LeadFits(
    u: seq<string>, p: seq<string>, position: nat, start: nat, out: seq<string>, more: seq<string>)
    requires position <= start <= |u| && StartsAs(p, out, Slice(u, position, start), more)
    ensures var n := |Slice(u, position, start)|;
            var pairs := Spread(position, |out|, n);
            && position + n == start && Rising(pairs, position, |out|, start, |out| + n) && SameLines(u, p, pairs)
  {
    hide Rising, SameLines, Spread, Slice, Has, StartsAs;
    var part := Slice(u, position, start);
    SliceStands(u, position, start);
    StartStands(p, out, part, more);
    SpreadFits(u, p, part, position, |out|);
  }

  /** What the hunk itself keeps. */
  lemma BodyFits(u: seq<string>, p: seq<string>, h: Hunk, position: nat, out: seq<string>, part: seq<string>)
    requires Stands(u, h, position) && 0 <= Start(h) <= |u| && BodyMatches(h) && StartsAs(p, out, part, h.newLines)
    ensures var n := |out| + |part|;
            var pairs := Pairs(h.body, Start(h), n);
            && Rising(pairs, Start(h), n, Start(h) + |h.oldLines|, n + |h.newLines|)
            && SameLines(u, p, pairs)
  {
    hide OldLines, NewLines, Rising, SameLines, Pairs, Stands, Has, StartsAs;
    StandsThere(u, h, position);
    StartStands(p, out, part, h.newLines);
    PairsRise(h.body, Start(h), |out| + |part|);
    PairsSame(u, p, h.body, Start(h), |out| + |part|);
  }

  /** What a hunk and the lines before it keep. */
  lemma HunkFits(u: seq<string>, p: seq<string>, h: Hunk, position: nat, out: seq<string>)
    requires position <= |u| && Stands(u, h, position) && Start(h) <= |u| && BodyMatches(h)
    requires position <= Start(h) && StartsAs(p, out, Slice(u, position, Start(h)), h.newLines)
    ensures var n := |Slice(u, position, Start(h))|;
            var pairs := Spread(position, |out|, n) + Pairs(h.body, Start(h), |out| + n);
            && Rising(pairs, position, |out|, Start(h) + |h.oldLines|, |out| + n + |h.newLines|)
            && SameLines(u, p, pairs)
  {
    hide OldLines, NewLines, Rising, SameLines, Pairs, Spread, Stands, Slice, BodyMatches, StartsAs;
    var part := Slice(u, position, Start(h));
    LeadFits(u, p, position, Start(h), out, h.newLines);
    BodyFits(u, p, h, position, out, part);
    BothFit(u, p, Spread(position, |out|, |part|), Pairs(h.body, Start(h), |out| + |part|),
            position, |out|, Start(h), |out| + |part|, Start(h) + |h.oldLines|, |out| + |part| + |h.newLines|);
  }

  lemma BothFit(u: seq<string>, p: seq<string>, a: seq<(nat, nat)>, b: seq<(nat, nat)>,
                i: nat, j: nat, m: nat, n: nat, i': nat, j': nat)
    requires Rising(a, i, j, m, n) && Rising(b, m, n, i', j') && i <= m <= i' && j <= n <= j'
    requires SameLines(u, p, a) && SameLines(u, p, b)
    ensures Rising(a + b, i, j, i', j') && SameLines(u, p, a + b)
  {
    hide Rising, SameLines;
    RisingTogether(a, b, i, j, m, n, i', j');
    SameTogether(u, p, a, b);
  }

  lemma {:induction false} KeptFit(u: seq<string>, hunks: seq<Hunk>, position: nat, out: seq<string>)
    requires ApplyFrom(u, hunks, position, out).Some? && position <= |u| && Patch.Inside(u, hunks)
    requires forall k :: 0 <= k < |hunks| ==> BodyMatches(hunks[k])
    ensures var p := ApplyFrom(u, hunks, position, out).value;
            var pairs := KeptPairs(u, hunks, position, |out|);
            Rising(pairs, position, |out|, |u|, |p|) && SameLines(u, p, pairs) && |out| <= |p|
    decreases |hunks|
  {
    hide OldLines, NewLines, Rising, SameLines, Pairs, Spread, ApplyFrom, KeptPairs, Slice, Stands;
    var p := ApplyFrom(u, hunks, position, out).value;
    if hunks == [] {
      TailFits(u, position, out);
    } else {
      var h := hunks[0];
      FirstApplied(u, hunks, position, out);
      StandsLater(u, h, position);
      FirstPairs(u, hunks, position, |out|);
      InsideRest(u, hunks);
      LeadsBack(u, h, position);
      var part := Slice(u, position, Start(h));
      var made := out + part + h.newLines;
      ApplyKeeps(u, hunks[1..], Start(h) + |h.oldLines|, made);
      HunkFits(u, p, h, position, out);
      KeptFit(u, hunks[1..], Start(h) + |h.oldLines|, made);
      var rest := KeptPairs(u, hunks[1..], Start(h) + |h.oldLines|, |made|);
      var a, b := Spread(position, |out|, |part|), Pairs(h.body, Start(h), |out| + |part|);
      RisingTogether(a + b, rest, position, |out|, Start(h) + |h.oldLines|, |made|, |u|, |p|);
      SameTogether(u, p, a + b, rest);
      assert a + (b + rest) == a + b + rest;
    }
  }

  lemma TailPairs(u: seq<string>, position: nat, made: nat)
    requires position <= |u|
    ensures KeptPairs(u, [], position, made) == Spread(position, made, |u[position..]|)
  {
    hide Spread;
  }

  lemma TailStands(u: seq<string>, position: nat)
    requires position <= |u|
    ensures Has(u, position, u[position..])
  {
  }

  lemma TailFits(u: seq<string>, position: nat, out: seq<string>)
    requires position <= |u|
    ensures ApplyFrom(u, [], position, out).Some?
    ensures var p := ApplyFrom(u, [], position, out).value;
            var pairs := KeptPairs(u, [], position, |out|);
            Rising(pairs, position, |out|, |u|, |p|) && SameLines(u, p, pairs) && |out| <= |p|
  {
    hide Rising, SameLines, Spread, KeptPairs, ApplyFrom, Has;
    NoneLeft(u, position, out);
    TailPairs(u, position, |out|);
    var part := u[position..];
    TailStands(u, position);
    PrefixStands(out + part, out, part);
    SpreadFits(u, out + part, part, position, |out|);
  }

  /** The kept lines are all the lines that the patch does not remove, and all the
      lines of the patched file that it did not add: each of them once, in order,
      the same on both sides, and so many that nothing else is left. */
  lemma KeptAreTheRest(u: seq<string>, hunks: seq<Hunk>)
    requires Apply(u, hunks).Some? && Patch.Inside(u, hunks)
    requires forall k :: 0 <= k < |hunks| ==> BodyMatches(hunks[k])
    ensures |KeptPairs(u, hunks, 0, 0)| + AllRemoved(hunks) == |u|
    ensures |KeptPairs(u, hunks, 0, 0)| + AllAdded(hunks) == |Apply(u, hunks).value|
    ensures Rising(KeptPairs(u, hunks, 0, 0), 0, 0, |u|, |Apply(u, hunks).value|)
    ensures SameLines(u, Apply(u, hunks).value, KeptPairs(u, hunks, 0, 0))
  {
    KeptCount(u, hunks, 0, []);
    KeptFit(u, hunks, 0, []);
  }
}
