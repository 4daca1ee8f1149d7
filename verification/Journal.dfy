/**
 The output journal: a bounded window over everything a presentation has ever
 printed. Sending consumes nothing; an acknowledgement frees what was delivered,
 and overflow drops the oldest bytes and counts them.
 */
module Journal {
  import opened Bytes
  import F = Frames

  const JOURNAL_LIMIT := 128 * 1024

  datatype Read = NoRead | Read(gap: bool, offset: nat, bytes: seq<Byte>)

  function Min(a: nat, b: nat): nat { if a < b then a else b }

  function Max(a: int, b: int): int { if a > b then a else b }

  class OutputJournal {
    const capacity: nat
    const sequenceLimit: nat
    var bytes: seq<Byte>
    var begin: nat
    var end: nat
    var acknowledged: nat
    var delivered: nat
    var dropped: nat
    ghost var stream: seq<Byte>     // all of this presentation's output
    ghost var lost: set<nat>        // the offsets that overflow dropped

    /** The journal is the window [begin, end) of the stream, and every offset
        before it was acknowledged or counted as dropped. */
    ghost predicate Valid()
      reads this
    {
      && capacity <= JOURNAL_LIMIT && sequenceLimit <= F.MAXIMUM_OFFSET
      && end == |stream| && begin <= end <= sequenceLimit
      && bytes == stream[begin..end] && |bytes| <= capacity
      && acknowledged <= delivered <= end && acknowledged <= begin
      && dropped == |lost|
      && (forall o :: o in lost ==> o < begin)
      && (forall o :: acknowledged <= o < begin ==> o in lost)
    }

    constructor (capacity: nat, sequenceLimit: nat)
      ensures Valid() && stream == [] && fresh(this)
      ensures this.capacity == Min(capacity, JOURNAL_LIMIT)
              && this.sequenceLimit == Min(sequenceLimit, F.MAXIMUM_OFFSET)
    {
      this.capacity := Min(capacity, JOURNAL_LIMIT);
      this.sequenceLimit := Min(sequenceLimit, F.MAXIMUM_OFFSET);
      bytes, begin, end, acknowledged, delivered, dropped := [], 0, 0, 0, 0, 0;
      stream, lost := [], {};
    }

    /** What no operation within one presentation takes back. */
    twostate predicate Advances()
      reads this
    {
      && old(stream) <= stream && old(lost) <= lost && old(begin) <= begin
      && old(acknowledged) <= acknowledged && old(delivered) <= delivered
    }

    /** One more byte at the end; a full window first drops its oldest. */
    method AppendByte(b: Byte)
      requires Valid() && end < sequenceLimit
      modifies this
      ensures Valid() && Advances() && stream == old(stream) + [b]
      ensures acknowledged == old(acknowledged) && delivered == old(delivered)
      ensures begin == Max(old(begin), end - capacity)
      ensures dropped - old(dropped) == begin - old(begin)
    {
      stream := stream + [b];
      end := end + 1;
      if capacity == 0 {
        lost := lost + {begin};
        begin := begin + 1;
        dropped := dropped + 1;
      } else {
        if |bytes| == capacity {
          bytes := bytes[1..];
          lost := lost + {begin};
          begin := begin + 1;
          dropped := dropped + 1;
        }
        bytes := bytes + [b];
      }
    }

    /** Output that does not fit the offsets is refused whole. */
    method Append(more: seq<Byte>) returns (ok: bool)
      requires Valid()
      modifies this
      ensures Valid() && Advances()
      ensures ok <==> old(end) + |more| <= sequenceLimit
      ensures stream == if ok then old(stream) + more else old(stream)
      ensures begin == if ok then Max(old(begin), end - capacity) else old(begin)
      ensures dropped - old(dropped) == begin - old(begin)
      ensures acknowledged == old(acknowledged) && delivered == old(delivered)
    {
      if |more| > sequenceLimit - end { return false; }
      for i := 0 to |more|
        invariant Valid() && Advances() && stream == old(stream) + more[..i]
        invariant begin == Max(old(begin), end - capacity)
        invariant dropped - old(dropped) == begin - old(begin)
        invariant acknowledged == old(acknowledged) && delivered == old(delivered)
      {
        AppendByte(more[i]);
      }
      assert more[..|more|] == more;
      return true;
    }

    method ReadFrom(offset: nat, maximum: nat) returns (r: Read)
      requires Valid()
      ensures r.NoRead? <==> offset > end || maximum == 0 || maximum > F.PAYLOAD_LIMIT
      ensures r.Read? ==>
                && r.offset == Max(offset, begin) && (r.gap <==> offset < begin)
                && |r.bytes| == Min(maximum, end - r.offset)
                && r.bytes == stream[r.offset..r.offset + |r.bytes|]
    {
      if offset > end || maximum == 0 || maximum > F.PAYLOAD_LIMIT { return NoRead; }
      var start := Max(offset, begin);
      var count := Min(maximum, end - start);
      var result: seq<Byte> := [];
      var index := start - begin;
      for i := 0 to count
        invariant result == stream[start..start + i]
      {
        result := result + [bytes[index + i]];
      }
      return Read(offset < begin, start, result);
    }

    method Delivered(next: nat) returns (ok: bool)
      requires Valid()
      modifies this`delivered
      ensures Valid() && Advances()
      ensures ok <==> next <= end
      ensures delivered == if ok then Max(old(delivered), next) else old(delivered)
    {
      if next > end { return false; }
      delivered := Max(delivered, next);
      return true;
    }

    /** Frees what was applied; nothing beyond what was delivered. */
    method Acknowledge(next: nat) returns (ok: bool)
      requires Valid()
      modifies this
      ensures Valid() && Advances() && stream == old(stream) && lost == old(lost) && delivered == old(delivered)
      ensures ok <==> next <= delivered
      ensures acknowledged == if ok then Max(old(acknowledged), next) else old(acknowledged)
      ensures begin == Max(old(begin), acknowledged)
    {
      if next > delivered { return false; }
      if next <= acknowledged { return true; }
      acknowledged := next;
      while begin < next
        invariant begin <= end == |stream| && stream == old(stream) && lost == old(lost) && dropped == old(dropped)
        invariant bytes == stream[begin..end] && old(begin) <= begin && begin <= Max(old(begin), next)
        invariant acknowledged == next && delivered == old(delivered) && end == old(end)
        decreases next - begin
      {
        bytes := bytes[1..];
        begin := begin + 1;
      }
      return true;
    }

    /** Only for a presentation with a different identity. */
    method Clear()
      requires Valid()
      modifies this
      ensures Valid() && stream == [] && lost == {} && begin == end == acknowledged == delivered == dropped == 0
    {
      bytes, begin, end, acknowledged, delivered, dropped := [], 0, 0, 0, 0, 0;
      stream, lost := [], {};
    }
  }
}
