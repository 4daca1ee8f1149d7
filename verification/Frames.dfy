/**
 Output frames: a 24 byte header (magic, payload length, session, offset of the
 first byte, all big endian) and its payload.
 */
module Frames {
  import opened Common
  import opened Bytes

  const HEADER_SIZE := 24
  const PAYLOAD_LIMIT := 4096
  const MAXIMUM_OFFSET: nat := 0x7FFF_FFFF_FFFF_FFFF
  const MAGIC: seq<Byte> := [0x41, 0x54, 0x58, 0x31]   // ATX1

  datatype Header = Header(length: nat, session: nat, offset: nat)

  predicate ValidHeader(h: Header) {
    0 < h.length <= PAYLOAD_LIMIT && 0 < h.session <= MAXIMUM_OFFSET && h.offset + h.length <= MAXIMUM_OFFSET
  }

  function EncodeHeader(h: Header): (r: Option<seq<Byte>>) {
    if !ValidHeader(h) then None else Some(MAGIC + Big(h.length, 4) + Big(h.session, 8) + Big(h.offset, 8))
  }

  function DecodeHeader(b: seq<Byte>): (r: Option<Header>) {
    if |b| != HEADER_SIZE || b[..4] != MAGIC then None
    else
      var h := Header(FromBig(b[4..8]), FromBig(b[8..16]), FromBig(b[16..24]));
      if ValidHeader(h) then Some(h) else None
  }

  /** A number shifted right by whole bytes. */
  function Shifted(value: nat, bytes: nat): nat
    decreases bytes
  {
    if bytes == 0 then value else Shifted(value / 256, bytes - 1)
  }

  lemma {:induction false} ShiftedOnce(value: nat, bytes: nat)
    ensures Shifted(value, bytes) / 256 == Shifted(value, bytes + 1)
    decreases bytes
  {
    if bytes > 0 { ShiftedOnce(value / 256, bytes - 1); }
  }

  /** Writes the low bytes of a number, the greatest first. */
  method Put(value: nat, length: nat) returns (target: seq<Byte>)
    ensures target == Big(value, length)
  {
    target := [];
    for i := 0 to length
      invariant target == Big(Shifted(value, length - i), i)
    {
      ShiftedOnce(value, length - i - 1);
      target := target + [Shifted(value, length - i - 1) % 256];
    }
  }

  method Get(source: seq<Byte>) returns (value: nat)
    ensures value == FromBig(source)
  {
    value := 0;
    for i := 0 to |source|
      invariant value == FromBig(source[..i])
    {
      assert source[..i + 1][..i] == source[..i];
      value := value * 256 + source[i];
    }
    assert source[..|source|] == source;
  }

  lemma HeaderSlices(length: seq<Byte>, session: seq<Byte>, offset: seq<Byte>)
    requires |length| == 4 && |session| == 8 && |offset| == 8
    ensures var b := MAGIC + length + session + offset;
            |b| == HEADER_SIZE && b[..4] == MAGIC && b[4..8] == length && b[8..16] == session && b[16..24] == offset
  {
  }

  lemma HeaderReads(h: Header)
    requires ValidHeader(h)
    ensures EncodeHeader(h).Some? && |EncodeHeader(h).value| == HEADER_SIZE
    ensures DecodeHeader(EncodeHeader(h).value) == Some(h)
  {
    hide Big, FromBig, Power;
    Powers();
    HeaderSlices(Big(h.length, 4), Big(h.session, 8), Big(h.offset, 8));
    BigReads(h.length, 4);
    BigReads(h.session, 8);
    BigReads(h.offset, 8);
  }

  lemma HeaderWrites(b: seq<Byte>)
    requires DecodeHeader(b).Some?
    ensures EncodeHeader(DecodeHeader(b).value) == Some(b)
  {
    hide Big, FromBig;
    BigWrites(b[4..8]);
    BigWrites(b[8..16]);
    BigWrites(b[16..24]);
    assert b == b[..4] + b[4..8] + b[8..16] + b[16..24];
  }

  /** A complete frame on the wire. */
  datatype Frame = Frame(session: nat, offset: nat, payload: seq<Byte>)

  predicate ValidFrame(f: Frame) { ValidHeader(Header(|f.payload|, f.session, f.offset)) }

  /** Empty when the frame cannot be written. */
  function EncodeFrame(f: Frame): (b: seq<Byte>)
    ensures b == [] <==> !ValidFrame(f)
    ensures ValidFrame(f) ==> |b| == HEADER_SIZE + |f.payload|
  {
    match EncodeHeader(Header(|f.payload|, f.session, f.offset))
    case None => []
    case Some(h) => h + f.payload
  }

  function EncodeAll(frames: seq<Frame>): seq<Byte> {
    if frames == [] then [] else EncodeAll(frames[..|frames| - 1]) + EncodeFrame(frames[|frames| - 1])
  }

  lemma EncodeOneMore(frames: seq<Frame>, f: Frame)
    ensures EncodeAll(frames + [f]) == EncodeAll(frames) + EncodeFrame(f)
  {
    var all := frames + [f];
    assert all[..|all| - 1] == frames && all[|all| - 1] == f;
  }

  /** What a reader of the stream makes of it: its complete frames. */
  function Received(wire: seq<Byte>): seq<Frame>
    decreases |wire|
  {
    if |wire| < HEADER_SIZE then []
    else
      match DecodeHeader(wire[..HEADER_SIZE])
      case None => []
      case Some(h) =>
        if |wire| < HEADER_SIZE + h.length then []
        else
          [Frame(h.session, h.offset, wire[HEADER_SIZE..HEADER_SIZE + h.length])]
          + Received(wire[HEADER_SIZE + h.length..])
  }

  lemma FrameReads(f: Frame, rest: seq<Byte>)
    requires ValidFrame(f)
    ensures Received(EncodeFrame(f) + rest) == [f] + Received(rest)
  {
    var h := Header(|f.payload|, f.session, f.offset);
    HeaderReads(h);
    var wire := EncodeFrame(f) + rest;
    assert wire[..HEADER_SIZE] == EncodeHeader(h).value;
    assert wire[HEADER_SIZE..HEADER_SIZE + h.length] == f.payload;
    assert wire[HEADER_SIZE + h.length..] == rest;
  }

  /** A frame cut short is no frame yet. */
  lemma PartialIsSilent(f: Frame, n: nat)
    requires ValidFrame(f) && n < |EncodeFrame(f)|
    ensures Received(EncodeFrame(f)[..n]) == []
  {
    var h := Header(|f.payload|, f.session, f.offset);
    HeaderReads(h);
    if n >= HEADER_SIZE {
      assert EncodeFrame(f)[..n][..HEADER_SIZE] == EncodeHeader(h).value;
    }
  }

  lemma LastMoved(frames: seq<Frame>, all: seq<Frame>, later: seq<Frame>, tail: seq<Frame>)
    requires frames != [] && all == frames[..|frames| - 1] + later && later == [frames[|frames| - 1]] + tail
    ensures all == frames + tail
  {
  }

  lemma LastRead(frames: seq<Frame>, rest: seq<Byte>)
    requires frames != [] && ValidFrame(frames[|frames| - 1])
    requires var n := |frames| - 1; var later := EncodeFrame(frames[n]) + rest;
             Received(EncodeAll(frames[..n]) + later) == frames[..n] + Received(later)
    ensures Received(EncodeAll(frames) + rest) == frames + Received(rest)
  {
    var n := |frames| - 1;
    var first, last := EncodeAll(frames[..n]), EncodeFrame(frames[n]);
    assert EncodeAll(frames) + rest == first + (last + rest);
    FrameReads(frames[n], rest);
    LastMoved(frames, Received(EncodeAll(frames) + rest), Received(last + rest), Received(rest));
  }

  /** A reader sees exactly the frames written, followed by what it makes of the rest. */
  lemma {:induction false} StreamReads(frames: seq<Frame>, rest: seq<Byte>)
    requires forall i :: 0 <= i < |frames| ==> ValidFrame(frames[i])
    ensures Received(EncodeAll(frames) + rest) == frames + Received(rest)
    decreases |frames|
  {
    if frames == [] {
      assert EncodeAll(frames) + rest == rest;
    } else {
      var n := |frames| - 1;
      StreamReads(frames[..n], EncodeFrame(frames[n]) + rest);
      LastRead(frames, rest);
    }
  }
}
