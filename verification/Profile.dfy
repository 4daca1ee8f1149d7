/**
 Principal profiles: which identities, packages, groups and contexts are well
 formed. Syntax only; passing is no authorization.
 */
module Profile {
  import opened Common
  import opened Bytes
  import opened Text
  import Mls

  const MAXIMUM_GROUPS := 64
  const MAXIMUM_PACKAGE := 255
  const MAXIMUM_CONTEXT := 255
  const USER_OFFSET := 100000
  const FIRST_APPLICATION := 10000
  const LAST_APPLICATION := 19999
  const INVALID_ID: nat := 0xFFFF_FFFF

  type Uint32 = x: int | 0 <= x < 0x1_0000_0000
  type Uint64 = x: int | 0 <= x < 0x1_0000_0000_0000_0000
  type Int32 = x: int | -0x8000_0000 <= x < 0x8000_0000
  type Int64 = x: int | -0x8000_0000_0000_0000 <= x < 0x8000_0000_0000_0000

  datatype Binding = Binding(
    instance: Uint64, generation: Uint64, user: Int32, userSerial: Int64, uid: Uint32, gid: Uint32, package: seq<Byte>)

  datatype Principal = Principal(binding: Binding, groups: seq<Uint32>, context: seq<Byte>)

  predicate Positive(v: Uint64) { 0 < v <= INT64_MAX }

  /** An ordinary application of that Android user. */
  predicate Application(user: Int32, uid: Uint32) {
    user >= 0 && uid / USER_OFFSET == user && FIRST_APPLICATION <= uid % USER_OFFSET <= LAST_APPLICATION
  }

  lemma ApplicationIs(user: Int32, uid: Uint32)
    ensures Application(user, uid) <==>
            user >= 0 && FIRST_APPLICATION <= uid - user * USER_OFFSET <= LAST_APPLICATION
  {
    assert uid == uid / USER_OFFSET * USER_OFFSET + uid % USER_OFFSET;
  }

  predicate Letter(c: char) { 'a' <= c <= 'z' || 'A' <= c <= 'Z' }

  /** A letter, then letters, digits or underscores. */
  predicate Name(s: string) {
    s != [] && Letter(s[0]) && forall i :: 0 < i < |s| ==> Letter(s[i]) || Mls.Digit(s[i]) || s[i] == '_'
  }

  method IsName(s: string) returns (ok: bool)
    ensures ok == Name(s)
  {
    if s == [] || !Letter(s[0]) { return false; }
    for i := 1 to |s|
      invariant forall k :: 0 < k < i ==> Letter(s[k]) || Mls.Digit(s[k]) || s[k] == '_'
    {
      if !Letter(s[i]) && !Mls.Digit(s[i]) && s[i] != '_' { return false; }
    }
    return true;
  }

  // ---- package names

  function Segments(s: string): seq<string> { Split(s, '.') }

  ghost predicate AllNames(segments: seq<string>) { forall i :: 0 <= i < |segments| ==> Name(segments[i]) }

  ghost predicate ValidPackage(s: string) {
    |s| <= MAXIMUM_PACKAGE && |Segments(s)| >= 2 && AllNames(Segments(s))
  }

  /** A package name is two or more names joined by dots. */
  lemma PackageIsNames(s: string)
    ensures ValidPackage(s) <==>
            && |s| <= MAXIMUM_PACKAGE
            && exists names: seq<string> :: |names| >= 2 && AllNames(names) && s == Join(names, '.')
  {
    SplitJoins(s, '.');
    if exists names: seq<string> :: |names| >= 2 && AllNames(names) && s == Join(names, '.') {
      var names: seq<string> :| |names| >= 2 && AllNames(names) && s == Join(names, '.');
      JoinSplits(names, '.');
    }
  }

  /** Names up to the end, the first of them the one with this number. */
  predicate NamesFrom(s: string, number: nat)
    decreases |s|
  {
    var k := Find(s, '.');
    Name(s[..k]) && if k == |s| then number >= 2 else NamesFrom(s[k + 1..], number + 1)
  }

  lemma {:induction false} NamesFromSegments(s: string, number: nat)
    requires number >= 1
    ensures NamesFrom(s, number) <==> AllNames(Segments(s)) && |Segments(s)| + number > 2
    decreases |s|
  {
    var k := Find(s, '.');
    if k < |s| {
      NamesFromSegments(s[k + 1..], number + 1);
      var rest := Segments(s[k + 1..]);
      var all := [s[..k]] + rest;
      assert all[0] == s[..k] && all[1..] == rest;
      assert forall i :: 0 < i < |all| ==> all[i] == rest[i - 1];
      assert forall i :: 0 <= i < |rest| ==> rest[i] == all[i + 1];
      assert rest != [];
    } else {
      assert s[..k] == s;
      assert Segments(s)[0] == s && |Segments(s)| == 1;
    }
  }

  lemma NamesStep(s: string, begin: nat, number: nat)
    requires begin <= |s|
    ensures var rest := s[begin..]; var k := Find(rest, '.');
            NamesFrom(rest, number) == (Name(rest[..k])
              && if k == |rest| then number >= 2 else NamesFrom(s[begin + k + 1..], number + 1))
  {
    var rest := s[begin..];
    var k := Find(rest, '.');
    if k < |rest| { assert rest[k + 1..] == s[begin + k + 1..]; }
  }

  method IsPackage(s: string) returns (ok: bool)
    ensures ok == ValidPackage(s)
  {
    hide NamesFrom, Split, Name;
    if |s| > MAXIMUM_PACKAGE { return false; }
    var begin, number := 0, 1;
    NamesFromSegments(s, 1);
    assert s[0..] == s;
    while true
      invariant 0 <= begin <= |s| && number >= 1 && NamesFrom(s, 1) == NamesFrom(s[begin..], number)
      decreases |s| - begin
    {
      var rest := s[begin..];
      var k := Find(rest, '.');
      NamesStep(s, begin, number);
      ok := IsName(rest[..k]);
      if !ok { return; }
      if k == |rest| { return number >= 2; }
      begin := begin + k + 1;
      number := number + 1;
    }
  }

  // ---- groups

  /** Strictly ascending, none zero and none the invalid one. */
  ghost predicate ValidGroups(groups: seq<Uint32>) {
    && |groups| <= MAXIMUM_GROUPS
    && (forall i :: 0 <= i < |groups| ==> 0 < groups[i] != INVALID_ID)
    && (forall i, j :: 0 <= i < j < |groups| ==> groups[i] < groups[j])
  }

  method AreGroups(groups: seq<Uint32>) returns (ok: bool)
    ensures ok == ValidGroups(groups)
  {
    if |groups| > MAXIMUM_GROUPS { return false; }
    var previous: Uint32 := 0;
    for i := 0 to |groups|
      invariant previous == if i == 0 then 0 else groups[i - 1]
      invariant ValidGroups(groups[..i])
    {
      assert groups[..i + 1] == groups[..i] + [groups[i]];
      if groups[i] <= previous || groups[i] == INVALID_ID {
        assert i > 0 ==> groups[i - 1] == previous;
        return false;
      }
      assert forall k :: 0 <= k < i ==> groups[..i][k] <= previous;
      previous := groups[i];
    }
    assert groups[..|groups|] == groups;
    return true;
  }

  // ---- contexts

  /** So many names, each ended by a colon, and then a range. */
  predicate FieldsThenRange(s: string, fields: nat)
    decreases fields
  {
    if fields == 0 then Mls.Accepts(s)
    else var k := Find(s, ':'); k < |s| && Name(s[..k]) && FieldsThenRange(s[k + 1..], fields - 1)
  }

  predicate ValidContext(s: string) { |s| <= MAXIMUM_CONTEXT && FieldsThenRange(s, 3) }

  lemma FieldIs(name: string, rest: string, fields: nat)
    requires Name(name)
    ensures FieldsThenRange(name + ":" + rest, fields + 1) == FieldsThenRange(rest, fields)
  {
    assert ':' !in name;
    FindIs(name, ':', rest);
    var s := name + ":" + rest;
    assert s[..|name|] == name && s[|name| + 1..] == rest;
  }

  lemma FieldHas(s: string, fields: nat) returns (name: string, rest: string)
    requires fields > 0 && FieldsThenRange(s, fields)
    ensures Name(name) && s == name + ":" + rest && FieldsThenRange(rest, fields - 1)
  {
    var k := Find(s, ':');
    name, rest := s[..k], s[k + 1..];
    assert s == s[..k] + [s[k]] + s[k + 1..];
  }

  ghost predicate ContextParts(s: string, user: string, role: string, kind: string, range: string) {
    Name(user) && Name(role) && Name(kind) && Mls.Accepts(range)
      && s == user + ":" + (role + ":" + (kind + ":" + range))
  }

  /** A context is user, role, type and range, joined by colons. */
  lemma ContextIsParts(s: string)
    ensures ValidContext(s) <==>
            |s| <= MAXIMUM_CONTEXT && exists user, role, kind, range :: ContextParts(s, user, role, kind, range)
  {
    if ValidContext(s) {
      var user, later := FieldHas(s, 3);
      var role, last := FieldHas(later, 2);
      var kind, range := FieldHas(last, 1);
      assert ContextParts(s, user, role, kind, range);
    }
    if exists user, role, kind, range :: ContextParts(s, user, role, kind, range) {
      var user, role, kind, range :| ContextParts(s, user, role, kind, range);
      FieldIs(kind, range, 0);
      FieldIs(role, kind + ":" + range, 1);
      FieldIs(user, role + ":" + (kind + ":" + range), 2);
    }
  }

  lemma FieldStep(s: string, begin: nat, fields: nat)
    requires begin <= |s| && fields > 0
    ensures var rest := s[begin..]; var k := Find(rest, ':');
            FieldsThenRange(rest, fields) ==
              (k < |rest| && Name(rest[..k]) && FieldsThenRange(s[begin + k + 1..], fields - 1))
  {
    hide Mls.Accepts, Name, Find;
    var rest := s[begin..];
    var k := Find(rest, ':');
    if k < |rest| { assert rest[k + 1..] == s[begin + k + 1..]; }
  }

  lemma RangeAlone(s: string)
    ensures FieldsThenRange(s, 0) == Mls.Accepts(s)
  {
  }

  method IsContext(s: string) returns (ok: bool)
    ensures ok == ValidContext(s)
  {
    hide Mls.Accepts, FieldsThenRange, Name;
    if |s| > MAXIMUM_CONTEXT { return false; }
    var begin := 0;
    assert s[0..] == s;
    for field := 0 to 3
      invariant 0 <= begin <= |s|
      invariant FieldsThenRange(s, 3) == FieldsThenRange(s[begin..], 3 - field)
    {
      var rest := s[begin..];
      var k := Find(rest, ':');
      FieldStep(s, begin, 3 - field);
      if k == |rest| { return false; }
      ok := IsName(rest[..k]);
      if !ok { return; }
      begin := begin + k + 1;
    }
    RangeAlone(s[begin..]);
    var range := new Mls.Range(s[begin..]);
    ok := range.Valid();
  }

  // ---- profiles

  function TextOf(b: seq<Byte>): string { seq(|b|, i requires 0 <= i < |b| => b[i] as char) }

  ghost predicate ValidProfile(p: Principal) {
    var b := p.binding;
    && Positive(b.instance) && Positive(b.generation) && b.user >= 0 && b.userSerial >= 0
    && Application(b.user, b.uid) && b.gid == b.uid
    && ValidPackage(TextOf(b.package)) && ValidGroups(p.groups) && ValidContext(TextOf(p.context))
  }

  method IsProfile(p: Principal) returns (ok: bool)
    ensures ok == ValidProfile(p)
  {
    var b := p.binding;
    ok := Positive(b.instance) && Positive(b.generation) && b.user >= 0 && b.userSerial >= 0
          && Application(b.user, b.uid) && b.gid == b.uid;
    if ok { ok := IsPackage(TextOf(b.package)); }
    if ok { ok := AreGroups(p.groups); }
    if ok { ok := IsContext(TextOf(p.context)); }
  }
}
