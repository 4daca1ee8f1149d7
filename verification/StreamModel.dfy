/**
 What an attachment stream has carried, as values: the frames it completed, the
 frame under way, and how both relate to the journal's view of the output.
 */
module StreamModel {
  import opened Bytes
  import F = Frames

  /** The journal's side: the whole output, what was acknowledged, what overflow dropped. */
  datatype View = View(stream: seq<Byte>, acknowledged: nat, lost: set<nat>)

  /** The sender's fields. */
  datatype Sender = Sender(cursor: nat, frame: seq<Byte>, frameSent: nat, frameEnd: nat)

  /** The stream's history: where it was to start, its complete frames, every
      byte sent on it, and the frame under way. */
  datatype History = History(start: nat, frames: seq<F.Frame>, wire: seq<Byte>, pending: F.Frame)

  const IDLE := F.Frame(0, 0, [])

  function Reached(start: nat, frames: seq<F.Frame>): nat {
    if frames == [] then start else frames[|frames| - 1].offset + |frames[|frames| - 1].payload|
  }

  /** Every offset in [from, to) was acknowledged or dropped. */
  ghost predicate Excused(from: nat, to: nat, v: View) {
    forall o :: from <= o < to ==> o < v.acknowledged || o in v.lost
  }

  /** A frame of the session that carries the output at its offset. */
  predicate Carries(f: F.Frame, session: nat, v: View) {
    && F.ValidFrame(f) && f.session == session && f.offset + |f.payload| <= |v.stream|
    && f.payload == v.stream[f.offset..f.offset + |f.payload|]
  }

  /** Each frame carries the output at its offset, in order, and whatever lies
      between two frames is excused. */
  ghost predicate Follows(start: nat, frames: seq<F.Frame>, session: nat, v: View)
    decreases |frames|
  {
    frames == [] ||
    var n := |frames| - 1;
    && Follows(start, frames[..n], session, v)
    && Carries(frames[n], session, v)
    && Reached(start, frames[..n]) <= frames[n].offset
    && Excused(Reached(start, frames[..n]), frames[n].offset, v)
  }

  /** The frame under way stands where the cursor is, and is not yet all sent. */
  predicate FrameSound(s: Sender, h: History, session: nat, v: View) {
    if s.frame == [] then s.frameSent == 0 else
      && Carries(h.pending, session, v) && s.frame == F.EncodeFrame(h.pending) && s.frameSent < |s.frame|
      && s.cursor == h.pending.offset && s.frameEnd == h.pending.offset + |h.pending.payload|
  }

  /** The stream carried its complete frames and the part of the next that was sent. */
  predicate WireSound(frame: seq<Byte>, sent: nat, h: History) {
    sent <= |frame| && h.wire == F.EncodeAll(h.frames) + frame[..sent]
  }

  ghost predicate StreamSound(s: Sender, h: History, session: nat, v: View) {
    && s.cursor <= |v.stream|
    && FrameSound(s, h, session, v)
    && Follows(h.start, h.frames, session, v)
    && Reached(h.start, h.frames) <= s.cursor
    && Excused(Reached(h.start, h.frames), s.cursor, v)
    && WireSound(s.frame, s.frameSent, h)
  }

  ghost predicate Grows(v: View, w: View) {
    v.stream <= w.stream && v.acknowledged <= w.acknowledged && v.lost <= w.lost
  }

  lemma CarriesLater(f: F.Frame, session: nat, v: View, w: View)
    requires Carries(f, session, v) && Grows(v, w)
    ensures Carries(f, session, w)
  {
    assert w.stream[..|v.stream|] == v.stream;
  }

  lemma {:induction false} FollowsLater(start: nat, frames: seq<F.Frame>, session: nat, v: View, w: View)
    requires Follows(start, frames, session, v) && Grows(v, w)
    ensures Follows(start, frames, session, w)
    decreases |frames|
  {
    if frames != [] {
      FollowsLater(start, frames[..|frames| - 1], session, v, w);
      CarriesLater(frames[|frames| - 1], session, v, w);
    }
  }

  /** The journal moving on takes nothing from the stream. */
  lemma SoundLater(s: Sender, h: History, session: nat, v: View, w: View)
    requires StreamSound(s, h, session, v) && Grows(v, w)
    ensures StreamSound(s, h, session, w)
  {
    FollowsLater(h.start, h.frames, session, v, w);
    if s.frame != [] { CarriesLater(h.pending, session, v, w); }
  }

  lemma Starts(cursor: nat, session: nat, v: View)
    requires cursor <= |v.stream|
    ensures StreamSound(Sender(cursor, [], 0, 0), History(cursor, [], [], IDLE), session, v)
  {
  }

  /** The cursor passes over what is excused. */
  lemma Skips(s: Sender, h: History, session: nat, v: View, cursor: nat)
    requires StreamSound(s, h, session, v) && s.frame == []
    requires s.cursor <= cursor <= |v.stream| && Excused(s.cursor, cursor, v)
    ensures StreamSound(s.(cursor := cursor), h, session, v)
  {
  }

  /** A frame of the output at the cursor is taken up. */
  lemma TakesUp(s: Sender, h: History, session: nat, v: View, payload: seq<Byte>)
    requires StreamSound(s, h, session, v) && s.frame == []
    requires Carries(F.Frame(session, s.cursor, payload), session, v)
    ensures var f := F.Frame(session, s.cursor, payload);
            F.EncodeFrame(f) != [] && StreamSound(Sender(s.cursor, F.EncodeFrame(f), 0, s.cursor + |payload|),
              h.(pending := f), session, v)
  {
  }

  lemma WireGrows(frame: seq<Byte>, sent: nat, h: History, n: nat)
    requires WireSound(frame, sent, h) && sent + n <= |frame|
    ensures WireSound(frame, sent + n, h.(wire := h.wire + frame[sent..sent + n]))
  {
    hide F.EncodeAll;
    MoreOf(F.EncodeAll(h.frames), frame, h.wire, sent, n);
  }

  lemma MoreOf(before: seq<Byte>, frame: seq<Byte>, wire: seq<Byte>, sent: nat, n: nat)
    requires sent + n <= |frame| && wire == before + frame[..sent]
    ensures wire + frame[sent..sent + n] == before + frame[..sent + n]
  {
  }

  /** Some more bytes of the frame are sent, but not its last. */
  lemma Progresses(s: Sender, h: History, session: nat, v: View, n: nat)
    requires StreamSound(s, h, session, v) && s.frame != [] && s.frameSent + n < |s.frame|
    ensures StreamSound(s.(frameSent := s.frameSent + n),
            h.(wire := h.wire + s.frame[s.frameSent..s.frameSent + n]), session, v)
  {
    WireGrows(s.frame, s.frameSent, h, n);
  }

  lemma RestOf(before: seq<Byte>, frame: seq<Byte>, wire: seq<Byte>, sent: nat)
    requires sent <= |frame| && wire == before + frame[..sent]
    ensures wire + frame[sent..] == before + frame
  {
  }

  lemma WireCompletes(frame: seq<Byte>, sent: nat, h: History)
    requires WireSound(frame, sent, h) && frame == F.EncodeFrame(h.pending)
    ensures WireSound([], 0, h.(frames := h.frames + [h.pending], wire := h.wire + frame[sent..]))
  {
    RestOf(F.EncodeAll(h.frames), frame, h.wire, sent);
    F.EncodeOneMore(h.frames, h.pending);
  }

  lemma SentInside(s: Sender, h: History, session: nat, v: View)
    requires StreamSound(s, h, session, v)
    ensures s.frameSent <= |s.frame| && (s.frame != [] ==> s.frameEnd <= |v.stream|)
  {
  }

  /** The last byte of the frame is sent. */
  lemma Completes(s: Sender, h: History, session: nat, v: View)
    requires StreamSound(s, h, session, v) && s.frame != []
    ensures StreamSound(Sender(s.frameEnd, [], 0, s.frameEnd),
                        h.(frames := h.frames + [h.pending], wire := h.wire + s.frame[s.frameSent..]), session, v)
  {
    WireCompletes(s.frame, s.frameSent, h);
    var frames := h.frames + [h.pending];
    assert frames[..|frames| - 1] == h.frames;
  }

  lemma {:induction false} FollowsValid(start: nat, frames: seq<F.Frame>, session: nat, v: View)
    requires Follows(start, frames, session, v)
    ensures forall i :: 0 <= i < |frames| ==> F.ValidFrame(frames[i])
    decreases |frames|
  {
    if frames != [] { FollowsValid(start, frames[..|frames| - 1], session, v); }
  }

  /** A reader of the stream sees exactly its complete frames; the part of a
      frame that has been sent is not yet one. */
  lemma ReaderSeesFrames(s: Sender, h: History, session: nat, v: View)
    requires StreamSound(s, h, session, v)
    ensures F.Received(h.wire) == h.frames
  {
    FollowsValid(h.start, h.frames, session, v);
    F.StreamReads(h.frames, s.frame[..s.frameSent]);
    if s.frame != [] { F.PartialIsSilent(h.pending, s.frameSent); }
  }

  /** What a reader has applied is the output itself, from where the stream was
      to start, less what is excused: any offset it has passed without seeing its
      byte was acknowledged before or counted as dropped. */
  lemma {:induction false} NothingMissing(start: nat, frames: seq<F.Frame>, session: nat, v: View, o: nat)
    requires Follows(start, frames, session, v) && start <= o < Reached(start, frames)
    ensures o < v.acknowledged || o in v.lost
            || exists i :: 0 <= i < |frames| && frames[i].offset <= o < frames[i].offset + |frames[i].payload|
                           && frames[i].payload[o - frames[i].offset] == v.stream[o]
    decreases |frames|
  {
    if frames != [] {
      var n := |frames| - 1;
      if o < Reached(start, frames[..n]) {
        NothingMissing(start, frames[..n], session, v, o);
      } else if o >= frames[n].offset {
        assert frames[n].payload[o - frames[n].offset] == v.stream[o];
      }
    }
  }
}
