/**
 Launch descriptions: what an owner asks to be executed, as a strict little
 endian record. Start retries are matched by the record's bytes, which is
 matching by meaning because records and descriptions are in bijection.
 */
module Launch {
  import opened Common
  import opened Bytes

  const MAGIC := 0x41584c44
  const VERSION := 1
  const HEADER := 24

  datatype Description = Description(
    executable: seq<Byte>, arguments: seq<seq<Byte>>, environment: seq<seq<Byte>>, directory: seq<Byte>)

  datatype Limits = Limits(bytes: nat, arguments: nat, environment: nat)

  datatype Error = Invalid | Limit | Framing

  predicate ValidLimits(l: Limits) {
    HEADER <= l.bytes <= 1024 * 1024 && 0 < l.arguments <= 4096 && l.environment <= 4096
  }

  predicate Clean(s: seq<Byte>) { 0 !in s }

  // ---- encoding

  /** A byte string after its length. */
  function Field(s: seq<Byte>): seq<Byte> { Little(|s|, 4) + s }

  function Fields(strings: seq<seq<Byte>>): seq<Byte> {
    if strings == [] then [] else Field(strings[0]) + Fields(strings[1..])
  }

  /** All the strings of a description, in the record's order. */
  function Strings(d: Description): seq<seq<Byte>> { [d.executable, d.directory] + d.arguments + d.environment }

  function Header(size: nat, arguments: nat, environment: nat): (h: seq<Byte>)
    ensures |h| == HEADER
  {
    Little(MAGIC, 4) + Little(VERSION, 4) + Little(size, 4) + Little(arguments, 4) + Little(environment, 4)
      + Little(0, 4)
  }

  function Record(d: Description): seq<Byte> {
    var body := Fields(Strings(d));
    Header(HEADER + |body|, |d.arguments|, |d.environment|) + body
  }

  /** The first string that does not fit in what remains, or is not clean. */
  function Check(strings: seq<seq<Byte>>, remaining: nat): Option<Error> {
    if strings == [] then None
    else if remaining < 4 + |strings[0]| then Some(Limit)
    else if !Clean(strings[0]) then Some(Invalid)
    else Check(strings[1..], remaining - 4 - |strings[0]|)
  }

  function Encode(d: Description, l: Limits): Result<seq<Byte>, Error> {
    if !ValidLimits(l) || d.executable == [] || d.directory == [] || d.arguments == [] then Err(Invalid)
    else if |d.arguments| > l.arguments || |d.environment| > l.environment then Err(Limit)
    else match Check(Strings(d), l.bytes - HEADER)
      case Some(e) => Err(e)
      case None => Ok(Record(d))
  }

  // ---- decoding

  /** A clean byte string after its length, and the rest. */
  function ReadField(b: seq<Byte>): (r: Option<(seq<Byte>, seq<Byte>)>)
    ensures r.Some? ==> |r.value.1| < |b|
  {
    if |b| < 4 then None
    else
      var size := FromLittle(b[..4]);
      if size > |b| - 4 || !Clean(b[4..4 + size]) then None else Some((b[4..4 + size], b[4 + size..]))
  }

  function ReadFields(b: seq<Byte>, count: nat): Option<(seq<seq<Byte>>, seq<Byte>)>
    decreases count
  {
    if count == 0 then Some(([], b))
    else match ReadField(b)
      case None => None
      case Some((first, rest)) =>
        match ReadFields(rest, count - 1)
        case None => None
        case Some((others, last)) => Some(([first] + others, last))
  }

  predicate GoodHeader(b: seq<Byte>) {
    && |b| >= HEADER
    && FromLittle(b[0..4]) == MAGIC && FromLittle(b[4..8]) == VERSION && FromLittle(b[8..12]) == |b|
    && FromLittle(b[20..24]) == 0 && FromLittle(b[12..16]) != 0
  }

  /** The description that strings make up, if they are the right ones. */
  function Assemble(strings: seq<seq<Byte>>, arguments: nat): Option<Description>
    requires 2 + arguments <= |strings|
  {
    if strings[0] == [] || strings[1] == [] then None
    else Some(Description(strings[0], strings[2..2 + arguments], strings[2 + arguments..], strings[1]))
  }

  function Decode(b: seq<Byte>, l: Limits): Result<Description, Error> {
    if !ValidLimits(l) then Err(Invalid)
    else if |b| > l.bytes then Err(Limit)
    else if !GoodHeader(b) then Err(Framing)
    else
      var arguments, environment := FromLittle(b[12..16]), FromLittle(b[16..20]);
      if arguments > l.arguments || environment > l.environment then Err(Limit)
      else match ReadFields(b[HEADER..], 2 + arguments + environment)
        case None => Err(Framing)
        case Some((strings, rest)) =>
          if |strings| != 2 + arguments + environment || rest != [] then Err(Framing)
          else match Assemble(strings, arguments)
            case None => Err(Framing)
            case Some(d) => Ok(d)
  }

  // ---- the two are inverse

  lemma FieldReads(s: seq<Byte>, rest: seq<Byte>)
    requires Clean(s) && |s| < Power(4)
    ensures ReadField(Field(s) + rest) == Some((s, rest))
  {
    var b := Field(s) + rest;
    LittleReads(|s|, 4);
    assert b[..4] == Little(|s|, 4);
    assert b[4..4 + |s|] == s;
    assert b[4 + |s|..] == rest;
  }

  lemma FieldWrites(b: seq<Byte>)
    requires ReadField(b).Some?
    ensures var (s, rest) := ReadField(b).value; b == Field(s) + rest && Clean(s) && |b| == 4 + |s| + |rest|
  {
    var (s, rest) := ReadField(b).value;
    LittleWrites(b[..4]);
    assert |s| == FromLittle(b[..4]);
    assert b == b[..4] + s + rest;
  }

  lemma FieldsSplit(first: seq<Byte>, others: seq<seq<Byte>>, rest: seq<Byte>)
    ensures Fields([first] + others) + rest == Field(first) + (Fields(others) + rest)
  {
    assert ([first] + others)[1..] == others;
  }

  ghost predicate AllClean(strings: seq<seq<Byte>>) {
    forall i :: 0 <= i < |strings| ==> Clean(strings[i]) && |strings[i]| < Power(4)
  }

  lemma {:induction false} FieldsRead(strings: seq<seq<Byte>>, rest: seq<Byte>)
    requires AllClean(strings)
    ensures ReadFields(Fields(strings) + rest, |strings|) == Some((strings, rest))
    decreases |strings|
  {
    if strings == [] {
      assert Fields(strings) + rest == rest;
    } else {
      assert strings == [strings[0]] + strings[1..];
      FieldsSplit(strings[0], strings[1..], rest);
      FieldReads(strings[0], Fields(strings[1..]) + rest);
      FieldsRead(strings[1..], rest);
    }
  }

  lemma {:induction false} FieldsWritten(b: seq<Byte>, count: nat)
    requires ReadFields(b, count).Some?
    ensures var (strings, rest) := ReadFields(b, count).value;
            |strings| == count && b == Fields(strings) + rest && forall i :: 0 <= i < |strings| ==> Clean(strings[i])
    decreases count
  {
    if count == 0 {
      assert Fields([]) + b == b;
    } else {
      FieldWrites(b);
      var (first, rest) := ReadField(b).value;
      FieldsWritten(rest, count - 1);
      var (others, last) := ReadFields(rest, count - 1).value;
      FieldsSplit(first, others, last);
    }
  }

  /** Strings pass the check exactly when they are clean and all fit. */
  lemma {:induction false} CheckPasses(strings: seq<seq<Byte>>, remaining: nat)
    ensures Check(strings, remaining).None? <==>
            |Fields(strings)| <= remaining && forall i :: 0 <= i < |strings| ==> Clean(strings[i])
    decreases |strings|
  {
    if strings != [] {
      if |strings[0]| + 4 <= remaining { CheckPasses(strings[1..], remaining - 4 - |strings[0]|); }
      assert forall i :: 1 <= i < |strings| ==> strings[i] == strings[1..][i - 1];
      assert forall i :: 0 <= i < |strings[1..]| ==> strings[1..][i] == strings[i + 1];
    }
  }

  lemma {:induction false} FieldsBound(strings: seq<seq<Byte>>, i: nat)
    requires i < |strings|
    ensures |strings[i]| + 4 <= |Fields(strings)|
    decreases |strings|
  {
    if i > 0 { FieldsBound(strings[1..], i - 1); }
  }

  lemma SixSlices(p: seq<Byte>, q: seq<Byte>, r: seq<Byte>, s: seq<Byte>, t: seq<Byte>, u: seq<Byte>, body: seq<Byte>)
    requires |p| == |q| == |r| == |s| == |t| == |u| == 4
    ensures var b := p + q + r + s + t + u + body;
            b[0..4] == p && b[4..8] == q && b[8..12] == r && b[12..16] == s && b[16..20] == t && b[20..24] == u
              && b[24..] == body
  {
  }

  lemma HeaderReads(size: nat, arguments: nat, environment: nat, body: seq<Byte>)
    requires size < Power(4) && arguments < Power(4) && environment < Power(4)
    ensures var b := Header(size, arguments, environment) + body;
            && FromLittle(b[0..4]) == MAGIC && FromLittle(b[4..8]) == VERSION && FromLittle(b[8..12]) == size
            && FromLittle(b[12..16]) == arguments && FromLittle(b[16..20]) == environment && FromLittle(b[20..24]) == 0
            && b[24..] == body
  {
    Powers();
    SixSlices(Little(MAGIC, 4), Little(VERSION, 4), Little(size, 4), Little(arguments, 4), Little(environment, 4),
      Little(0, 4), body);
    LittleReads(MAGIC, 4);
    LittleReads(VERSION, 4);
    LittleReads(size, 4);
    LittleReads(arguments, 4);
    LittleReads(environment, 4);
    LittleReads(0, 4);
  }

  lemma HeaderWrites(b: seq<Byte>)
    requires GoodHeader(b)
    ensures b == Header(|b|, FromLittle(b[12..16]), FromLittle(b[16..20])) + b[24..]
  {
    LittleWrites(b[0..4]);
    LittleWrites(b[4..8]);
    LittleWrites(b[8..12]);
    LittleWrites(b[12..16]);
    LittleWrites(b[16..20]);
    LittleWrites(b[20..24]);
    assert b == b[0..4] + b[4..8] + b[8..12] + b[12..16] + b[16..20] + b[20..24] + b[24..];
  }

  lemma StringsFit(strings: seq<seq<Byte>>, remaining: nat)
    requires Check(strings, remaining).None? && remaining < Power(4)
    ensures AllClean(strings) && |Fields(strings)| <= remaining
  {
    CheckPasses(strings, remaining);
    forall i | 0 <= i < |strings|
      ensures |strings[i]| < Power(4)
    {
      FieldsBound(strings, i);
    }
  }

  /** What a decode that succeeds has found. */
  ghost predicate Finds(b: seq<Byte>, l: Limits, strings: seq<seq<Byte>>, arguments: nat, environment: nat) {
    && ValidLimits(l) && |b| <= l.bytes && GoodHeader(b)
    && FromLittle(b[12..16]) == arguments <= l.arguments && FromLittle(b[16..20]) == environment <= l.environment
    && |strings| == 2 + arguments + environment && strings[0] != [] && strings[1] != []
    && ReadFields(b[HEADER..], 2 + arguments + environment) == Some((strings, []))
  }

  lemma FoundDecodes(b: seq<Byte>, l: Limits, strings: seq<seq<Byte>>, arguments: nat, environment: nat)
    requires Finds(b, l, strings, arguments, environment)
    ensures Decode(b, l) == Ok(Description(strings[0], strings[2..2 + arguments], strings[2 + arguments..], strings[1]))
  {
  }

  lemma DecodedFound(b: seq<Byte>, l: Limits) returns (strings: seq<seq<Byte>>, arguments: nat, environment: nat)
    requires Decode(b, l).Ok?
    ensures Finds(b, l, strings, arguments, environment)
    ensures Decode(b, l).value ==
            Description(strings[0], strings[2..2 + arguments], strings[2 + arguments..], strings[1])
  {
    arguments, environment := FromLittle(b[12..16]), FromLittle(b[16..20]);
    strings := ReadFields(b[HEADER..], 2 + arguments + environment).value.0;
  }

  lemma StringsOf(d: Description)
    ensures var s := Strings(d);
            && |s| == 2 + |d.arguments| + |d.environment| && s[0] == d.executable && s[1] == d.directory
            && s[2..2 + |d.arguments|] == d.arguments && s[2 + |d.arguments|..] == d.environment
  {
  }

  lemma BodyReads(strings: seq<seq<Byte>>)
    requires AllClean(strings)
    ensures ReadFields(Fields(strings), |strings|) == Some((strings, []))
  {
    FieldsRead(strings, []);
    assert Fields(strings) + [] == Fields(strings);
  }

  lemma RecordHeader(arguments: nat, environment: nat, body: seq<Byte>)
    requires HEADER + |body| < Power(4) && 0 < arguments < Power(4) && environment < Power(4)
    ensures var b := Header(HEADER + |body|, arguments, environment) + body;
            && GoodHeader(b) && FromLittle(b[12..16]) == arguments && FromLittle(b[16..20]) == environment
            && b[HEADER..] == body && |b| == HEADER + |body|
  {
    HeaderReads(HEADER + |body|, arguments, environment, body);
  }

  lemma EncodedFinds(d: Description, l: Limits)
    requires Encode(d, l).Ok?
    ensures Finds(Record(d), l, Strings(d), |d.arguments|, |d.environment|)
  {
    hide FromLittle, ReadFields, Fields, Little, Check;
    Powers();
    var strings := Strings(d);
    StringsFit(strings, l.bytes - HEADER);
    StringsOf(d);
    BodyReads(strings);
    RecordHeader(|d.arguments|, |d.environment|, Fields(strings));
  }

  /** Decoding an encoding gives the description back. */
  lemma EncodedDecodes(d: Description, l: Limits)
    requires Encode(d, l).Ok?
    ensures Decode(Encode(d, l).value, l) == Ok(d)
  {
    EncodedFinds(d, l);
    StringsOf(d);
    FoundDecodes(Record(d), l, Strings(d), |d.arguments|, |d.environment|);
  }

  lemma BodyWrites(b: seq<Byte>, strings: seq<seq<Byte>>, count: nat)
    requires ReadFields(b, count) == Some((strings, []))
    ensures b == Fields(strings) && forall i :: 0 <= i < |strings| ==> Clean(strings[i])
  {
    FieldsWritten(b, count);
    assert Fields(strings) + [] == Fields(strings);
  }

  lemma StringsAre(strings: seq<seq<Byte>>, arguments: nat)
    requires 2 + arguments <= |strings|
    ensures Strings(Description(strings[0], strings[2..2 + arguments], strings[2 + arguments..], strings[1])) == strings
  {
  }

  lemma FoundRecord(b: seq<Byte>, l: Limits, strings: seq<seq<Byte>>, arguments: nat, environment: nat)
    requires Finds(b, l, strings, arguments, environment)
    ensures b == Header(HEADER + |Fields(strings)|, arguments, environment) + Fields(strings)
    ensures Check(strings, l.bytes - HEADER).None?
  {
    hide FromLittle, ReadFields, Fields, Little, Check;
    BodyWrites(b[HEADER..], strings, 2 + arguments + environment);
    HeaderWrites(b);
    CheckPasses(strings, l.bytes - HEADER);
  }

  lemma EncodesTo(d: Description, l: Limits, b: seq<Byte>)
    requires ValidLimits(l) && d.executable != [] && d.directory != [] && 0 < |d.arguments| <= l.arguments
    requires |d.environment| <= l.environment && Check(Strings(d), l.bytes - HEADER).None?
    requires b == Header(HEADER + |Fields(Strings(d))|, |d.arguments|, |d.environment|) + Fields(Strings(d))
    ensures Encode(d, l) == Ok(b)
  {
  }

  /** Accepted bytes encode to themselves, under the same limits. */
  lemma DecodedEncodes(b: seq<Byte>, l: Limits)
    requires Decode(b, l).Ok?
    ensures Encode(Decode(b, l).value, l) == Ok(b)
  {
    hide Decode, Encode, FromLittle, ReadFields, Fields, Little, Check;
    var strings, arguments, environment := DecodedFound(b, l);
    StringsAre(strings, arguments);
    FoundRecord(b, l, strings, arguments, environment);
    EncodesTo(Decode(b, l).value, l, b);
  }

  /** Equal bytes are equal descriptions: a retry is matched by meaning. */
  lemma RetryByBytes(d: Description, e: Description, l: Limits)
    requires Encode(d, l).Ok? && Encode(e, l).Ok?
    ensures Encode(d, l).value == Encode(e, l).value <==> d == e
  {
    EncodedDecodes(d, l);
    EncodedDecodes(e, l);
  }

  // ---- the encoder and the decoder

  method Validate(strings: seq<seq<Byte>>, bound: nat) returns (e: Option<Error>, left: nat)
    ensures e == Check(strings, bound)
    ensures e.None? ==> left == bound - |Fields(strings)| && |Fields(strings)| <= bound
  {
    var remaining: nat := bound;
    for i := 0 to |strings|
      invariant remaining <= bound && Check(strings, bound) == Check(strings[i..], remaining)
      invariant |Fields(strings)| == bound - remaining + |Fields(strings[i..])|
    {
      assert strings[i..][0] == strings[i] && strings[i..][1..] == strings[i + 1..];
      if remaining < 4 || |strings[i]| > remaining - 4 { return Some(Limit), 0; }
      remaining := remaining - (|strings[i]| + 4);
      if 0 in strings[i] { return Some(Invalid), 0; }
    }
    assert strings[|strings|..] == [];
    return None, remaining;
  }

  method AppendField(out: seq<Byte>, s: seq<Byte>, bound: nat) returns (ok: bool, r: seq<Byte>)
    ensures ok <==> |out| + 4 + |s| <= bound
    ensures ok ==> r == out + Field(s)
  {
    if |out| > bound || bound - |out| < 4 || |s| > bound - |out| - 4 { return false, []; }
    r := WriteLittle(out, |s|, 4);
    r := r + s;
    ok := true;
    assert r == out + Field(s);
  }

  lemma FieldMoved(a: seq<Byte>, f: seq<Byte>, b: seq<Byte>)
    ensures a + (f + b) == a + f + b
  {
  }

  method AppendFields(out: seq<Byte>, strings: seq<seq<Byte>>, bound: nat) returns (ok: bool, r: seq<Byte>)
    ensures ok <==> strings == [] || |out| + |Fields(strings)| <= bound
    ensures ok ==> r == out + Fields(strings)
  {
    r := out;
    for i := 0 to |strings|
      invariant r + Fields(strings[i..]) == out + Fields(strings)
      invariant i > 0 ==> |r| <= bound
    {
      assert strings[i..][1..] == strings[i + 1..];
      var next: seq<Byte>;
      ok, next := AppendField(r, strings[i], bound);
      FieldMoved(r, Field(strings[i]), Fields(strings[i + 1..]));
      if !ok { return; }
      r := next;
    }
    ok := true;
    assert strings[|strings|..] == [];
    assert r + [] == r;
  }

  method EncodeLaunch(d: Description, l: Limits) returns (r: Result<seq<Byte>, Error>)
    ensures r == Encode(d, l)
  {
    hide Fields, Little, Check;
    if !ValidLimits(l) || d.executable == [] || d.directory == [] || d.arguments == [] { return Err(Invalid); }
    if |d.arguments| > l.arguments || |d.environment| > l.environment { return Err(Limit); }
    var e, left := Validate(Strings(d), l.bytes - HEADER);
    if e.Some? { return Err(e.value); }
    var b := WriteLittle([], MAGIC, 4);
    b := WriteLittle(b, VERSION, 4);
    b := WriteLittle(b, 0, 4);
    b := WriteLittle(b, |d.arguments|, 4);
    b := WriteLittle(b, |d.environment|, 4);
    b := WriteLittle(b, 0, 4);
    assert b == Header(0, |d.arguments|, |d.environment|);
    var ok;
    ok, b := AppendFields(b, Strings(d), l.bytes);
    if !ok { return Err(Limit); }
    var size := |b|;
    b := PatchLittle(b, 8, size);
    Patched(size, |d.arguments|, |d.environment|, Fields(Strings(d)));
    return Ok(b);
  }

  lemma Patched(size: nat, arguments: nat, environment: nat, body: seq<Byte>)
    ensures var b := Header(0, arguments, environment) + body;
            b[..8] + Little(size, 4) + b[12..] == Header(size, arguments, environment) + body
  {
    ThirdReplaced(Little(MAGIC, 4), Little(VERSION, 4), Little(0, 4), Little(size, 4),
                  Little(arguments, 4), Little(environment, 4), Little(0, 4), body);
  }

  lemma ThirdReplaced(
    p: seq<Byte>, q: seq<Byte>, r: seq<Byte>, r': seq<Byte>, s: seq<Byte>, t: seq<Byte>, u: seq<Byte>, body: seq<Byte>)
    requires |p| == |q| == |r| == |r'| == |s| == |t| == |u| == 4
    ensures var b := p + q + r + s + t + u + body; b[..8] + r' + b[12..] == p + q + r' + s + t + u + body
  {
    var b := p + q + r + s + t + u + body;
    assert b[..8] == p + q;
    assert b[12..] == s + t + u + body;
  }

  /** Reads forward through the bytes of a record. */
  class Reader {
    const bytes: seq<Byte>
    var offset: nat

    constructor (bytes: seq<Byte>)
      ensures this.bytes == bytes && offset == 0
    {
      this.bytes, offset := bytes, 0;
    }

    predicate Inside()
      reads this
    {
      offset <= |bytes|
    }

    ghost function Rest(): seq<Byte>
      requires Inside()
      reads this
    {
      bytes[offset..]
    }

    method Integer() returns (ok: bool, value: nat)
      requires Inside()
      modifies this
      ensures Inside() && (ok <==> |old(Rest())| >= 4)
      ensures ok ==> value == FromLittle(old(Rest())[..4]) && Rest() == old(Rest())[4..] && offset == old(offset) + 4
      ensures !ok ==> offset == old(offset)
    {
      if |bytes| - offset < 4 { return false, 0; }
      value := ReadLittle(bytes[offset..offset + 4]);
      assert old(Rest())[..4] == bytes[offset..offset + 4];
      offset := offset + 4;
      ok := true;
    }

    method ReadString() returns (ok: bool, value: seq<Byte>)
      requires Inside()
      modifies this
      ensures Inside() && (ok <==> ReadField(old(Rest())).Some?)
      ensures ok ==> ReadField(old(Rest())).value == (value, Rest())
    {
      ghost var b := Rest();
      var size;
      ok, size := Integer();
      if !ok || size > |bytes| - offset { return false, []; }
      value := bytes[offset..offset + size];
      assert value == b[4..4 + size];
      if 0 in value { return false, []; }
      offset := offset + size;
      return true, value;
    }

    /** Exactly count strings. */
    method ReadStrings(count: nat) returns (ok: bool, values: seq<seq<Byte>>)
      requires Inside()
      modifies this
      ensures Inside() && (ok <==> ReadFields(old(Rest()), count).Some?)
      ensures ok ==> ReadFields(old(Rest()), count).value == (values, Rest()) && |values| == count
    {
      ghost var b := Rest();
      values := [];
      assert Resumes(b, count, values, count, Rest()) by { ResumesFirst(b, count); }
      for i := 0 to count
        invariant Inside() && |values| == i && Resumes(b, count, values, count - i, Rest())
      {
        ghost var rest := Rest();
        var value;
        ok, value := ReadString();
        ResumesOne(b, count, values, count - i, rest);
        if !ok { return; }
        values := values + [value];
      }
      assert values + [] == values;
      ok := true;
    }
  }

  /** The strings read so far, and those still to be read, make up the whole. */
  ghost predicate Resumes(b: seq<Byte>, count: nat, values: seq<seq<Byte>>, left: nat, rest: seq<Byte>) {
    match ReadFields(rest, left)
    case None => ReadFields(b, count).None?
    case Some((more, last)) => ReadFields(b, count) == Some((values + more, last))
  }

  lemma ResumesFirst(b: seq<Byte>, count: nat)
    ensures Resumes(b, count, [], count, b)
  {
    if ReadFields(b, count).Some? { assert [] + ReadFields(b, count).value.0 == ReadFields(b, count).value.0; }
  }

  lemma ResumesOne(b: seq<Byte>, count: nat, values: seq<seq<Byte>>, left: nat, rest: seq<Byte>)
    requires left > 0 && Resumes(b, count, values, left, rest)
    ensures ReadField(rest).None? ==> ReadFields(b, count).None?
    ensures ReadField(rest).Some? ==>
            var (v, last) := ReadField(rest).value; Resumes(b, count, values + [v], left - 1, last)
  {
    if ReadField(rest).Some? {
      var (v, last) := ReadField(rest).value;
      if ReadFields(last, left - 1).Some? {
        var (more, end) := ReadFields(last, left - 1).value;
        assert values + ([v] + more) == values + [v] + more;
      }
    }
  }

  /** The header words, of which only the counts matter later. */
  method ReadHeader(reader: Reader) returns (ok: bool, arguments: nat, environment: nat)
    requires reader.offset == 0
    modifies reader
    ensures reader.Inside() && (ok <==> GoodHeader(reader.bytes))
    ensures ok ==> reader.Rest() == reader.bytes[HEADER..]
                   && arguments == FromLittle(reader.bytes[12..16]) && environment == FromLittle(reader.bytes[16..20])
  {
    hide FromLittle;
    ghost var b := reader.bytes;
    arguments, environment := 0, 0;
    var magic, version, size, reserved;
    ok, magic := reader.Integer();
    if !ok { return; }
    assert b[0..][..4] == b[0..4] && b[0..][4..] == b[4..];
    ok, version := reader.Integer();
    if !ok { return; }
    assert b[4..][..4] == b[4..8] && b[4..][4..] == b[8..];
    ok, size := reader.Integer();
    if !ok { return; }
    assert b[8..][..4] == b[8..12] && b[8..][4..] == b[12..];
    ok, arguments := reader.Integer();
    if !ok { return; }
    assert b[12..][..4] == b[12..16] && b[12..][4..] == b[16..];
    ok, environment := reader.Integer();
    if !ok { return; }
    assert b[16..][..4] == b[16..20] && b[16..][4..] == b[20..];
    ok, reserved := reader.Integer();
    if !ok { return; }
    assert b[20..][..4] == b[20..24] && b[20..][4..] == b[24..];
    ok := magic == MAGIC && version == VERSION && size == |reader.bytes| && reserved == 0 && arguments != 0;
  }

  method DecodeLaunch(b: seq<Byte>, l: Limits) returns (r: Result<Description, Error>)
    ensures r == Decode(b, l)
  {
    hide FromLittle, ReadFields;
    if !ValidLimits(l) { return Err(Invalid); }
    if |b| > l.bytes { return Err(Limit); }
    var reader := new Reader(b);
    var ok, arguments, environment := ReadHeader(reader);
    if !ok { return Err(Framing); }
    if arguments > l.arguments || environment > l.environment { return Err(Limit); }
    var strings;
    ok, strings := reader.ReadStrings(2 + arguments + environment);
    assert |reader.Rest()| == |b| - reader.offset;
    if !ok || reader.offset != |b| || strings[0] == [] || strings[1] == [] { return Err(Framing); }
    return Ok(Description(strings[0], strings[2..2 + arguments], strings[2 + arguments..], strings[1]));
  }
}
