/**
 Principal launches: the sealed record that carries one admitted work's
 principal to its launcher. A strict little endian format, in bijection with the
 valid launches.
 */
module PrincipalLaunch {
  import opened Common
  import opened Bytes
  import opened Profile

  const MAGIC := 0x4158504c
  const VERSION := 1
  const MAXIMUM_BYTES := 4096
  const HEADER := 16

  datatype Error = EINVAL | EMSGSIZE | EPROTO

  datatype Work = Work(manager: Uint64, serial: Uint64)

  datatype AuthorityEpoch = AuthorityEpoch(platform: Uint64, generation: Uint64, user: Int32)

  datatype Launch = Launch(work: Work, epoch: AuthorityEpoch, principal: Principal)

  ghost predicate ValidLaunch(l: Launch) {
    && l.work.manager != 0 && l.work.serial != 0
    && Positive(l.epoch.platform) && Positive(l.epoch.generation) && l.epoch.user >= 0
    && l.epoch.user == l.principal.binding.user && ValidProfile(l.principal)
  }

  method IsLaunch(l: Launch) returns (ok: bool)
    ensures ok == ValidLaunch(l)
  {
    ok := l.work.manager != 0 && l.work.serial != 0
          && Positive(l.epoch.platform) && Positive(l.epoch.generation) && l.epoch.user >= 0
          && l.epoch.user == l.principal.binding.user;
    if ok { ok := IsProfile(l.principal); }
  }

  // ---- two's complement

  function Unsigned32(x: Int32): Uint32 { if x < 0 then x + 0x1_0000_0000 else x }

  function Signed32(x: Uint32): Int32 { if x < 0x8000_0000 then x else x - 0x1_0000_0000 }

  function Unsigned64(x: Int64): Uint64 { if x < 0 then x + 0x1_0000_0000_0000_0000 else x }

  function Signed64(x: Uint64): Int64 { if x < 0x8000_0000_0000_0000 then x else x - 0x1_0000_0000_0000_0000 }

  // ---- words

  /** Numbers, each in its own count of bytes. */
  function Words(values: seq<nat>, widths: seq<nat>): seq<Byte>
    requires |values| == |widths|
  {
    if values == [] then [] else Little(values[0], widths[0]) + Words(values[1..], widths[1..])
  }

  function Total(widths: seq<nat>): nat { if widths == [] then 0 else widths[0] + Total(widths[1..]) }

  ghost predicate Fit(values: seq<nat>, widths: seq<nat>) {
    |values| == |widths| && forall i :: 0 <= i < |values| ==> values[i] < Power(widths[i])
  }

  function ReadWords(b: seq<Byte>, widths: seq<nat>): (r: Option<(seq<nat>, seq<Byte>)>)
    ensures r.Some? ==> Fit(r.value.0, widths) && |r.value.1| <= |b|
    decreases |widths|
  {
    if widths == [] then Some(([], b))
    else if |b| < widths[0] then None
    else match ReadWords(b[widths[0]..], widths[1..])
      case None => None
      case Some((others, rest)) => Some(([FromLittle(b[..widths[0]])] + others, rest))
  }

  lemma WordSplit(value: nat, width: nat, others: seq<Byte>, rest: seq<Byte>)
    ensures var b := Little(value, width) + others + rest;
            b[..width] == Little(value, width) && b[width..] == others + rest
  {
  }

  lemma {:induction false} WordsRead(values: seq<nat>, widths: seq<nat>, rest: seq<Byte>)
    requires Fit(values, widths)
    ensures ReadWords(Words(values, widths) + rest, widths) == Some((values, rest))
    decreases |values|
  {
    if values == [] {
      assert Words(values, widths) + rest == rest;
    } else {
      var others := Words(values[1..], widths[1..]);
      WordSplit(values[0], widths[0], others, rest);
      LittleReads(values[0], widths[0]);
      WordsRead(values[1..], widths[1..], rest);
      assert values == [values[0]] + values[1..];
    }
  }

  lemma {:induction false} WordsWritten(b: seq<Byte>, widths: seq<nat>)
    requires ReadWords(b, widths).Some?
    ensures var (values, rest) := ReadWords(b, widths).value; Fit(values, widths) && b == Words(values, widths) + rest
    decreases |widths|
  {
    hide Words, ReadWords, Power, Little, FromLittle;
    if widths == [] {
      NoneRead(b);
      NoWords();
      assert [] + b == b;
    } else {
      FirstRead(b, widths);
      var head, tail := b[..widths[0]], b[widths[0]..];
      WordsWritten(tail, widths[1..]);
      var (others, rest) := ReadWords(tail, widths[1..]).value;
      LittleWrites(head);
      WordsCons(FromLittle(head), others, widths);
      Reassociated(head, Words(others, widths[1..]), rest);
      assert b == head + tail;
    }
  }

  lemma NoneRead(b: seq<Byte>)
    ensures ReadWords(b, []) == Some(([], b))
  {
  }

  lemma FirstRead(b: seq<Byte>, widths: seq<nat>)
    requires widths != [] && ReadWords(b, widths).Some?
    ensures |b| >= widths[0] && ReadWords(b[widths[0]..], widths[1..]).Some?
    ensures var (others, rest) := ReadWords(b[widths[0]..], widths[1..]).value;
            ReadWords(b, widths).value == ([FromLittle(b[..widths[0]])] + others, rest)
  {
    hide FromLittle, Fit;
  }

  lemma WordsCons(first: nat, others: seq<nat>, widths: seq<nat>)
    requires widths != [] && |others| + 1 == |widths|
    ensures Words([first] + others, widths) == Little(first, widths[0]) + Words(others, widths[1..])
  {
    hide Little;
    assert ([first] + others)[1..] == others;
  }

  lemma Reassociated(a: seq<Byte>, b: seq<Byte>, c: seq<Byte>)
    ensures a + (b + c) == a + b + c
  {
  }

  lemma {:induction false} WordsLength(values: seq<nat>, widths: seq<nat>)
    requires |values| == |widths|
    ensures |Words(values, widths)| == Total(widths)
    decreases |values|
  {
    if values != [] { WordsLength(values[1..], widths[1..]); }
  }

  // ---- text and groups

  function TextField(t: seq<Byte>): seq<Byte> { Little(|t|, 4) + t }

  function ReadText(b: seq<Byte>): Option<(seq<Byte>, seq<Byte>)> {
    if |b| < 4 then None
    else
      var size := FromLittle(b[..4]);
      if size > |b| - 4 then None else Some((b[4..4 + size], b[4 + size..]))
  }

  lemma TextReads(t: seq<Byte>, rest: seq<Byte>)
    requires |t| < Power(4)
    ensures ReadText(TextField(t) + rest) == Some((t, rest))
  {
    hide Little, FromLittle;
    LittleReads(|t|, 4);
    var b := TextField(t) + rest;
    assert b[..4] == Little(|t|, 4) && b[4..4 + |t|] == t && b[4 + |t|..] == rest;
  }

  lemma TextWrites(b: seq<Byte>)
    requires ReadText(b).Some?
    ensures var (t, rest) := ReadText(b).value; b == TextField(t) + rest
  {
    hide Little, FromLittle;
    LittleWrites(b[..4]);
    var (t, rest) := ReadText(b).value;
    assert b == b[..4] + t + rest;
  }

  function Fours(count: nat): (w: seq<nat>)
    ensures |w| == count && forall i :: 0 <= i < count ==> w[i] == 4
  {
    seq(count, i => 4)
  }

  function GroupField(groups: seq<Uint32>): seq<Byte> { Little(|groups|, 4) + Words(groups, Fours(|groups|)) }

  function ReadGroups(b: seq<Byte>): Option<(seq<Uint32>, seq<Byte>)> {
    if |b| < 4 then None
    else
      var count := FromLittle(b[..4]);
      if count > (|b| - 4) / 4 then None
      else match ReadWords(b[4..], Fours(count))
        case None => None
        case Some((values, rest)) => Some((AsGroups(values), rest))
  }

  /** Words of four bytes, as groups. */
  function AsGroups(values: seq<nat>): (g: seq<Uint32>)
    requires Fit(values, Fours(|values|))
    ensures g == values
  {
    Powers();
    assert forall i :: 0 <= i < |values| ==> values[i] < Power(Fours(|values|)[i]);
    values
  }

  lemma GroupsFit(groups: seq<Uint32>)
    ensures Fit(groups, Fours(|groups|))
  {
    Powers();
  }

  lemma {:induction false} FoursTotal(count: nat)
    ensures Total(Fours(count)) == 4 * count
    decreases count
  {
    if count > 0 {
      FoursTotal(count - 1);
      assert Fours(count)[1..] == Fours(count - 1);
    }
  }

  lemma GroupsRead(groups: seq<Uint32>, rest: seq<Byte>)
    requires |groups| < Power(4)
    ensures ReadGroups(GroupField(groups) + rest) == Some((groups, rest))
  {
    hide Little, FromLittle, Words, ReadWords;
    LittleReads(|groups|, 4);
    var words := Words(groups, Fours(|groups|));
    var b := GroupField(groups) + rest;
    assert b[..4] == Little(|groups|, 4) && b[4..] == words + rest;
    GroupsFit(groups);
    WordsRead(groups, Fours(|groups|), rest);
    WordsLength(groups, Fours(|groups|));
    FoursTotal(|groups|);
  }

  lemma GroupsWritten(b: seq<Byte>)
    requires ReadGroups(b).Some?
    ensures var (groups, rest) := ReadGroups(b).value; b == GroupField(groups) + rest
  {
    hide Little, FromLittle, Words, ReadWords;
    var count := FromLittle(b[..4]);
    LittleWrites(b[..4]);
    WordsWritten(b[4..], Fours(count));
    var (groups, rest) := ReadGroups(b).value;
    assert b == b[..4] + b[4..];
    assert b == Little(count, 4) + Words(groups, Fours(count)) + rest;
  }

  // ---- the record

  const FIXED: seq<nat> := [8, 8, 8, 8, 4, 8, 8, 4, 8, 4, 4]

  /** The numbers of fixed width, in the record's order. */
  function Fixed(l: Launch): (v: seq<nat>)
    ensures |v| == 11
  {
    var b := l.principal.binding;
    [l.work.manager, l.work.serial, l.epoch.platform, l.epoch.generation, Unsigned32(l.epoch.user),
     b.instance, b.generation, Unsigned32(b.user), Unsigned64(b.userSerial), b.uid, b.gid]
  }

  function Body(l: Launch): seq<Byte> {
    Words(Fixed(l), FIXED) + (TextField(l.principal.binding.package) +
    (GroupField(l.principal.groups) + TextField(l.principal.context)))
  }

  function Record(l: Launch): seq<Byte> {
    Words([MAGIC, VERSION, HEADER + |Body(l)|, 0], Fours(4)) + Body(l)
  }

  lemma FixedFit(l: Launch)
    ensures Fit(Fixed(l), FIXED)
  {
    Powers();
  }

  function Assemble(v: seq<nat>, package: seq<Byte>, groups: seq<Uint32>, context: seq<Byte>): Launch
    requires Fit(v, FIXED)
  {
    Powers();
    assert forall i :: 0 <= i < 11 ==> v[i] < Power(FIXED[i]);
    Launch(Work(v[0], v[1]), AuthorityEpoch(v[2], v[3], Signed32(v[4])),
           Principal(Binding(v[5], v[6], Signed32(v[7]), Signed64(v[8]), v[9], v[10], package), groups, context))
  }

  lemma AssembleFixed(l: Launch)
    ensures Fit(Fixed(l), FIXED)
    ensures Assemble(Fixed(l), l.principal.binding.package, l.principal.groups, l.principal.context) == l
  {
    FixedFit(l);
  }

  lemma FixedAssemble(v: seq<nat>, package: seq<Byte>, groups: seq<Uint32>, context: seq<Byte>)
    requires Fit(v, FIXED)
    ensures Fixed(Assemble(v, package, groups, context)) == v
  {
    Powers();
  }

  function ReadBody(b: seq<Byte>): Option<Launch> {
    match ReadWords(b, FIXED)
    case None => None
    case Some((v, afterFixed)) =>
      match ReadText(afterFixed)
      case None => None
      case Some((package, afterPackage)) =>
        match ReadGroups(afterPackage)
        case None => None
        case Some((groups, afterGroups)) =>
          match ReadText(afterGroups)
          case None => None
          case Some((context, rest)) => if rest == [] then Some(Assemble(v, package, groups, context)) else None
  }

  lemma BodyReads(l: Launch)
    requires |l.principal.binding.package| < Power(4) && |l.principal.groups| < Power(4)
             && |l.principal.context| < Power(4)
    ensures ReadBody(Body(l)) == Some(l)
  {
    hide Words, ReadWords, ReadText, ReadGroups, TextField, GroupField, Assemble, Fixed, Power, Fit;
    var context := TextField(l.principal.context);
    var groups := GroupField(l.principal.groups) + context;
    var package := TextField(l.principal.binding.package) + groups;
    AssembleFixed(l);
    WordsRead(Fixed(l), FIXED, package);
    TextReads(l.principal.binding.package, groups);
    GroupsRead(l.principal.groups, context);
    TextReads(l.principal.context, []);
    assert context + [] == context;
  }

  lemma BodyWrites(b: seq<Byte>)
    requires ReadBody(b).Some?
    ensures Body(ReadBody(b).value) == b
  {
    hide Words, ReadWords, ReadText, ReadGroups, TextField, GroupField, Fixed, Power, Fit;
    var (v, afterFixed) := ReadWords(b, FIXED).value;
    WordsWritten(b, FIXED);
    var (package, afterPackage) := ReadText(afterFixed).value;
    TextWrites(afterFixed);
    var (groups, afterGroups) := ReadGroups(afterPackage).value;
    GroupsWritten(afterPackage);
    var (context, rest) := ReadText(afterGroups).value;
    TextWrites(afterGroups);
    assert TextField(context) + [] == TextField(context);
    FixedAssemble(v, package, groups, context);
  }

  // ---- encoding and decoding

  ghost function Encode(l: Launch): Result<seq<Byte>, Error> {
    if ValidLaunch(l) then Ok(Record(l)) else Err(EINVAL)
  }

  ghost function Decode(b: seq<Byte>): Result<Launch, Error> {
    if |b| > MAXIMUM_BYTES then Err(EMSGSIZE)
    else match ReadWords(b, Fours(4))
      case None => Err(EPROTO)
      case Some((header, body)) =>
        if header != [MAGIC, VERSION, |b|, 0] then Err(EPROTO)
        else match ReadBody(body)
          case None => Err(EPROTO)
          case Some(l) => if ValidLaunch(l) then Ok(l) else Err(EPROTO)
  }

  lemma ValidIsBounded(l: Launch)
    requires ValidLaunch(l)
    ensures |l.principal.binding.package| <= MAXIMUM_PACKAGE && |l.principal.groups| <= MAXIMUM_GROUPS
    ensures |l.principal.context| <= MAXIMUM_CONTEXT
  {
    hide Segments, AllNames, FieldsThenRange;
  }

  /** The length of a record, which for a valid launch is always within the bound. */
  lemma BodyLength(l: Launch)
    ensures |Body(l)| == 84 + |l.principal.binding.package| + 4 * |l.principal.groups| + |l.principal.context|
    ensures ValidLaunch(l) ==> HEADER + |Body(l)| <= MAXIMUM_BYTES
  {
    hide Body, ValidLaunch;
    if ValidLaunch(l) { ValidIsBounded(l); }
    LengthOfBody(l);
  }

  lemma LengthOfBody(l: Launch)
    ensures |Body(l)| == 84 + |l.principal.binding.package| + 4 * |l.principal.groups| + |l.principal.context|
  {
    hide Words, Power, Fit, Little;
    WordsLength(Fixed(l), FIXED);
    FixedTotal();
    WordsLength(l.principal.groups, Fours(|l.principal.groups|));
    FoursTotal(|l.principal.groups|);
  }

  lemma FixedTotal()
    ensures Total(FIXED) == 72
  {
    assert FIXED[1..] == [8, 8, 8, 4, 8, 8, 4, 8, 4, 4];
    assert Total([8, 4, 4]) == 16;
    assert Total([8, 8, 4, 8, 4, 4]) == 8 + (8 + (4 + 16)) by {
      assert [8, 8, 4, 8, 4, 4][1..] == [8, 4, 8, 4, 4];
      assert [8, 4, 8, 4, 4][1..] == [4, 8, 4, 4];
      assert [4, 8, 4, 4][1..] == [8, 4, 4];
    }
  }

  lemma HeaderReads(size: nat, body: seq<Byte>)
    requires size < Power(4)
    ensures ReadWords(Words([MAGIC, VERSION, size, 0], Fours(4)) + body, Fours(4)) ==
            Some(([MAGIC, VERSION, size, 0], body))
    ensures |Words([MAGIC, VERSION, size, 0], Fours(4))| == HEADER
  {
    Powers();
    var values := [MAGIC, VERSION, size, 0];
    assert Fit(values, Fours(4));
    WordsRead(values, Fours(4), body);
    WordsLength(values, Fours(4));
    FoursTotal(4);
  }

  /** Decoding an encoding gives the launch back. */
  lemma EncodedDecodes(l: Launch)
    requires ValidLaunch(l)
    ensures Encode(l).Ok? && Decode(Encode(l).value) == Ok(l)
  {
    hide Words, ReadWords, ReadBody, Body, Power, ValidLaunch;
    Powers();
    ValidIsBounded(l);
    BodyLength(l);
    BodyReads(l);
    HeaderReads(HEADER + |Body(l)|, Body(l));
  }

  /** Accepted bytes encode to themselves. */
  lemma DecodedEncodes(b: seq<Byte>)
    requires Decode(b).Ok?
    ensures Encode(Decode(b).value) == Ok(b)
  {
    hide Words, ReadBody, Body, Power, ValidLaunch;
    var (header, body) := ReadWords(b, Fours(4)).value;
    WordsWritten(b, Fours(4));
    BodyWrites(body);
    WordsLength(header, Fours(4));
    FoursTotal(4);
  }

  /** Records are equal exactly when the launches are. */
  lemma RecordsByMeaning(l: Launch, m: Launch)
    requires ValidLaunch(l) && ValidLaunch(m)
    ensures Record(l) == Record(m) <==> l == m
  {
    hide ValidLaunch, Record, Decode;
    EncodedDecodes(l);
    EncodedDecodes(m);
  }

  // ---- the encoder and the decoder

  lemma {:induction false} WordsMore(values: seq<nat>, widths: seq<nat>, i: nat)
    requires |values| == |widths| && i < |values|
    ensures Words(values[..i + 1], widths[..i + 1]) == Words(values[..i], widths[..i]) + Little(values[i], widths[i])
    decreases i
  {
    hide Little;
    var v, w := values[..i + 1], widths[..i + 1];
    if i == 0 {
      assert v[1..] == [] && w[1..] == [];
    } else {
      WordsMore(values[1..], widths[1..], i - 1);
      assert v[1..] == values[1..][..i] && w[1..] == widths[1..][..i];
      assert values[..i][1..] == values[1..][..i - 1] && widths[..i][1..] == widths[1..][..i - 1];
    }
  }

  method AppendWords(before: seq<Byte>, values: seq<nat>, widths: seq<nat>) returns (out: seq<Byte>)
    requires |values| == |widths|
    ensures out == before + Words(values, widths)
  {
    hide Words, Little;
    out := before;
    NoWords();
    assert values[..0] == [] && widths[..0] == [];
    for i := 0 to |values|
      invariant out == before + Words(values[..i], widths[..i])
    {
      WordsMore(values, widths, i);
      out := WriteLittle(out, values[i], widths[i]);
    }
    assert values[..|values|] == values && widths[..|values|] == widths;
  }

  lemma NoWords()
    ensures Words([], []) == []
  {
  }

  method AppendText(before: seq<Byte>, t: seq<Byte>) returns (out: seq<Byte>)
    ensures out == before + TextField(t)
  {
    out := WriteLittle(before, |t|, 4);
    out := out + t;
  }

  method AppendGroups(before: seq<Byte>, groups: seq<Uint32>) returns (out: seq<Byte>)
    ensures out == before + GroupField(groups)
  {
    hide Words;
    out := WriteLittle(before, |groups|, 4);
    out := AppendWords(out, groups, Fours(|groups|));
  }

  lemma Regrouped(before: seq<Byte>, a: seq<Byte>, b: seq<Byte>, c: seq<Byte>, d: seq<Byte>)
    ensures before + a + b + c + d == before + (a + (b + (c + d)))
  {
  }

  method AppendBody(before: seq<Byte>, l: Launch) returns (out: seq<Byte>)
    ensures out == before + Body(l)
  {
    hide Words, TextField, GroupField, Fixed;
    out := AppendWords(before, Fixed(l), FIXED);
    out := AppendText(out, l.principal.binding.package);
    out := AppendGroups(out, l.principal.groups);
    out := AppendText(out, l.principal.context);
    Regrouped(before, Words(Fixed(l), FIXED), TextField(l.principal.binding.package),
              GroupField(l.principal.groups), TextField(l.principal.context));
  }

  method EncodePrincipal(l: Launch) returns (r: Result<seq<Byte>, Error>)
    ensures r == Encode(l)
  {
    hide Words, Little, ValidLaunch, Body;
    var valid := IsLaunch(l);
    if !valid { return Err(EINVAL); }
    var out := AppendWords([], [MAGIC, VERSION, 0, 0], Fours(4));
    WordsLength([MAGIC, VERSION, 0, 0], Fours(4));
    FoursTotal(4);
    out := AppendBody(out, l);
    var size := |out|;
    out := PatchLittle(out, 8, size);
    HeaderPatched(size, Body(l));
    assert size == HEADER + |Body(l)|;
    assert out == Record(l);
    return Ok(out);
  }

  lemma FourWords(a: nat, b: nat, c: nat, d: nat)
    ensures Words([a, b, c, d], Fours(4)) == Little(a, 4) + Little(b, 4) + Little(c, 4) + Little(d, 4)
  {
    hide Little, Words;
    var values, widths := [a, b, c, d], Fours(4);
    assert values[..4] == values && widths[..4] == widths;
    assert values[..0] == [] && widths[..0] == [];
    NoWords();
    WordsMore(values, widths, 0);
    assert Words(values[..1], widths[..1]) == Little(a, 4);
    WordsMore(values, widths, 1);
    assert Words(values[..2], widths[..2]) == Little(a, 4) + Little(b, 4);
    WordsMore(values, widths, 2);
    assert Words(values[..3], widths[..3]) == Little(a, 4) + Little(b, 4) + Little(c, 4);
    WordsMore(values, widths, 3);
  }

  lemma HeaderPatched(size: nat, body: seq<Byte>)
    ensures var b := Words([MAGIC, VERSION, 0, 0], Fours(4)) + body;
            |b| >= 12 && b[..8] + Little(size, 4) + b[12..] == Words([MAGIC, VERSION, size, 0], Fours(4)) + body
  {
    hide Words, Little;
    FourWords(MAGIC, VERSION, 0, 0);
    FourWords(MAGIC, VERSION, size, 0);
    ThirdOfFour(Little(MAGIC, 4), Little(VERSION, 4), Little(0, 4), Little(size, 4), Little(0, 4), body);
  }

  lemma ThirdOfFour(p: seq<Byte>, q: seq<Byte>, r: seq<Byte>, r': seq<Byte>, s: seq<Byte>, body: seq<Byte>)
    requires |p| == |q| == |r| == |r'| == |s| == 4
    ensures var b := p + q + r + s + body; b[..8] + r' + b[12..] == p + q + r' + s + body
  {
    var b := p + q + r + s + body;
    assert b[..8] == p + q && b[12..] == s + body;
  }

  /** Reads forward; one read that does not fit spoils all that follow. */
  class Reader {
    var bytes: seq<Byte>
    var good: bool

    constructor (bytes: seq<Byte>)
      ensures this.bytes == bytes && good
    {
      this.bytes, good := bytes, true;
    }

    method Number(size: nat) returns (value: nat)
      modifies this
      ensures good == (old(good) && |old(bytes)| >= size)
      ensures good ==> value == FromLittle(old(bytes)[..size]) && bytes == old(bytes)[size..]
      ensures !good ==> value == 0
    {
      if |bytes| < size { good := false; }
      if !good { return 0; }
      value := ReadLittle(bytes[..size]);
      bytes := bytes[size..];
    }

    method Numbers(widths: seq<nat>) returns (values: seq<nat>)
      modifies this
      ensures |values| == |widths|
      ensures good <==> old(good) && ReadWords(old(bytes), widths).Some?
      ensures good ==> ReadWords(old(bytes), widths).value == (values, bytes)
    {
      hide FromLittle;
      values := [];
      ghost var b := bytes;
      if good { ResumesFirst(b, widths); }
      for i := 0 to |widths|
        invariant |values| == i
        invariant good ==> old(good) && Resumes(b, widths, values, widths[i..], bytes)
        invariant !good ==> !old(good) || ReadWords(b, widths).None?
      {
        assert widths[i..][1..] == widths[i + 1..];
        if good { ResumesOne(b, widths, values, widths[i..], bytes); }
        var value := Number(widths[i]);
        values := values + [value];
      }
      assert values + [] == values;
    }

    method ReadString() returns (value: seq<Byte>)
      modifies this
      ensures good <==> old(good) && ReadText(old(bytes)).Some?
      ensures good ==> ReadText(old(bytes)).value == (value, bytes)
    {
      hide FromLittle;
      var size := Number(4);
      if size > |bytes| { good := false; }
      if !good { return []; }
      assert old(bytes)[4..][..size] == old(bytes)[4..4 + size] && old(bytes)[4..][size..] == old(bytes)[4 + size..];
      value := bytes[..size];
      bytes := bytes[size..];
    }

    method Groups() returns (values: seq<Uint32>)
      modifies this
      ensures good <==> old(good) && ReadGroups(old(bytes)).Some?
      ensures good ==> ReadGroups(old(bytes)).value == (values, bytes)
    {
      hide FromLittle, ReadWords;
      var count := Number(4);
      if count > |bytes| / 4 { good := false; }
      if !good { return []; }
      var words := Numbers(Fours(count));
      if !good { return []; }
      values := AsGroups(words);
    }
  }

  ghost predicate Resumes(b: seq<Byte>, widths: seq<nat>, values: seq<nat>, left: seq<nat>, rest: seq<Byte>) {
    match ReadWords(rest, left)
    case None => ReadWords(b, widths).None?
    case Some((more, last)) => ReadWords(b, widths) == Some((values + more, last))
  }

  lemma ResumesFirst(b: seq<Byte>, widths: seq<nat>)
    ensures Resumes(b, widths, [], widths[0..], b)
  {
    assert widths[0..] == widths;
    if ReadWords(b, widths).Some? { assert [] + ReadWords(b, widths).value.0 == ReadWords(b, widths).value.0; }
  }

  lemma ResumesOne(b: seq<Byte>, widths: seq<nat>, values: seq<nat>, left: seq<nat>, rest: seq<Byte>)
    requires left != [] && Resumes(b, widths, values, left, rest)
    ensures |rest| < left[0] ==> ReadWords(b, widths).None?
    ensures |rest| >= left[0] ==> Resumes(b, widths, values + [FromLittle(rest[..left[0]])], left[1..], rest[left[0]..])
  {
    hide FromLittle;
    if |rest| >= left[0] && ReadWords(rest[left[0]..], left[1..]).Some? {
      var v := FromLittle(rest[..left[0]]);
      var (more, end) := ReadWords(rest[left[0]..], left[1..]).value;
      assert values + ([v] + more) == values + [v] + more;
    }
  }

  /** Reads what follows the header. */
  method ReadLaunch(reader: Reader) returns (l: Option<Launch>)
    requires reader.good
    modifies reader
    ensures l == ReadBody(old(reader.bytes))
  {
    hide ReadWords, ReadText, ReadGroups, Fit, Power, Assemble;
    var v := reader.Numbers(FIXED);
    var package := reader.ReadString();
    var groups := reader.Groups();
    var context := reader.ReadString();
    if !reader.good || reader.bytes != [] { return None; }
    return Some(Assemble(v, package, groups, context));
  }

  method DecodePrincipal(b: seq<Byte>) returns (r: Result<Launch, Error>)
    ensures r == Decode(b)
  {
    if |b| > MAXIMUM_BYTES { return Err(EMSGSIZE); }
    hide ReadWords, ReadBody, ValidLaunch;
    var reader := new Reader(b);
    var header := reader.Numbers(Fours(4));
    if !reader.good || header != [MAGIC, VERSION, |b|, 0] { return Err(EPROTO); }
    var l := ReadLaunch(reader);
    if l.None? { return Err(EPROTO); }
    var valid := IsLaunch(l.value);
    if !valid { return Err(EPROTO); }
    return Ok(l.value);
  }
}
