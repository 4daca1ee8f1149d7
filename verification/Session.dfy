/**
 One controller's view of the terminal output: attaching and reattaching,
 acknowledging, and moving output from the terminal through the journal into
 frames on the attachment stream.

 A ghost history records what the current attachment stream has carried since
 it was made. A method answers exit (or fault) where the daemon would end the
 process (or the session) for a bookkeeping failure; each promises that it
 never does.
 */
module Session {
  import opened Bytes
  import opened Journal
  import opened StreamModel
  import F = Frames

  const INT64_LIMIT: int := 0x8000_0000_0000_0000

  /** The unsigned reading of a signed 64 bit value. */
  function Unsigned(x: int): nat
    requires -INT64_LIMIT <= x < INT64_LIMIT
  {
    if x < 0 then x + 2 * INT64_LIMIT else x
  }

  /** What sending on the stream answers. */
  datatype Send = Sent(count: nat) | Again | SendFailed

  /** What the platform's lifecycle answers. */
  datatype Lifecycle = Ready | Unready | Failed

  /** What reading the terminal answers: a chunk, nothing for now or no more, or an error. */
  datatype Reading = Got(chunk: seq<Byte>) | Quiet | Broken

  /** How the preparations of an attachment end, by the first that fails: a locked
      user, with or without a home in use, another home than the one in use, or
      anything else that only refuses. */
  datatype Setup = Prepared | Locked(inUse: bool) | HomeChanged | Unprepared

  class Terminal {
    const output: OutputJournal
    var sessionId: nat
    var sender: Sender
    var connected: bool
    var stopping: bool
    ghost var history: History

    ghost function Output(): View
      reads output
    {
      View(output.stream, output.acknowledged, output.lost)
    }

    ghost predicate Valid()
      reads this, output
    {
      && output.Valid()
      && 0 < sessionId <= F.MAXIMUM_OFFSET
      && sender.cursor <= output.end
      && (if connected then StreamSound(sender, history, sessionId, Output()) else sender.frame == [])
    }

    constructor (output: OutputJournal, sessionId: nat)
      requires output.Valid() && 0 < sessionId <= F.MAXIMUM_OFFSET
      ensures Valid() && this.output == output && this.sessionId == sessionId && !connected && !stopping
    {
      this.output, this.sessionId := output, sessionId;
      sender, connected, stopping := Sender(0, [], 0, 0), false, false;
      history := History(0, [], [], IDLE);
    }

    method RevokeStream()
      requires Valid()
      modifies this`connected, this`sender
      ensures Valid() && !connected && sender.cursor == old(sender.cursor)
    {
      hide StreamSound;
      connected, sender := false, Sender(sender.cursor, [], 0, 0);
    }

    /** A failed platform ends the session. */
    method CheckLifecycle(lifecycle: Lifecycle) returns (ready: bool)
      requires Valid()
      modifies this`connected, this`sender, this`stopping
      ensures Valid() && ready == lifecycle.Ready? && stopping == (old(stopping) || lifecycle.Failed?)
      ensures if lifecycle.Failed? then !connected else connected == old(connected) && sender == old(sender)
      ensures sender.cursor == old(sender.cursor)
    {
      if lifecycle.Failed? {
        stopping := true;
        RevokeStream();
      }
      return lifecycle.Ready?;
    }

    /** A presentation under a new identity begins with an empty journal. */
    method Renew()
      requires Valid() && !connected && sessionId < F.MAXIMUM_OFFSET
      modifies this`sessionId, this`sender, output
      ensures Valid() && sessionId == old(sessionId) + 1 && output.stream == [] && output.lost == {}
              && output.acknowledged == 0
    {
      hide StreamSound;
      sessionId := sessionId + 1;
      output.Clear();
      sender := sender.(cursor := 0);
    }

    /** Opens the stream at a checkpoint, or at the oldest retained byte after it. */
    method Connect(same: bool, resume: nat) returns (exit: bool)
      requires Valid() && !connected && (same ==> resume <= output.delivered) && (!same ==> resume == 0)
      modifies this`sender, this`connected, this`history, output
      ensures Valid() && !exit && connected
      ensures output.stream == old(output.stream) && output.lost == old(output.lost)
      ensures output.acknowledged == Max(old(output.acknowledged), resume)
      ensures history == History(sender.cursor, [], [], IDLE) && sender == Sender(Max(resume, output.begin), [], 0, 0)
    {
      hide StreamSound;
      if same {
        var ok := output.Acknowledge(resume);
        if !ok { return true; }
      }
      sender := Sender(Max(resume, output.begin), [], 0, 0);
      history := History(sender.cursor, [], [], IDLE);
      connected := true;
      Starts(sender.cursor, sessionId, Output());
      return false;
    }

    /** The checkpoint given is one the controller can have. */
    predicate Attachable(previous: int, next: int, renewable: bool, hasProcess: bool, masterOpen: bool)
      requires -INT64_LIMIT <= previous < INT64_LIMIT && -INT64_LIMIT <= next < INT64_LIMIT
      reads this, output
    {
      && !stopping
      && (previous == sessionId ==> 0 <= next <= output.delivered)
      && (previous == 0 ==> next == 0)
      && (renewable && hasProcess ==> masterOpen && previous == sessionId)
    }

    /** The session ends at this attachment: for a failed platform, a locked user or
        a changed home while a home is in use, or for want of a presentation identity. */
    predicate EndsAt(previous: int, next: int, renewable: bool, hasProcess: bool, masterOpen: bool,
                     lifecycle: Lifecycle, setup: Setup)
      requires -INT64_LIMIT <= previous < INT64_LIMIT && -INT64_LIMIT <= next < INT64_LIMIT
      reads this, output
    {
      && !stopping
      && (|| lifecycle.Failed?
          || (&& lifecycle.Ready? && Attachable(previous, next, renewable, hasProcess, masterOpen)
              && (|| setup == Locked(true) || setup == HomeChanged
                  || (setup == Prepared && renewable && !hasProcess && sessionId == F.MAXIMUM_OFFSET))))
    }

    /** Attaches a controller. Within one presentation the stream resumes at the
        controller's checkpoint, which can only be one that was delivered. */
    method Attach(previous: int, next: int, renewable: bool, hasProcess: bool, masterOpen: bool,
                  lifecycle: Lifecycle, setup: Setup, started: bool)
      returns (ok: bool, exit: bool)
      requires Valid() && -INT64_LIMIT <= previous < INT64_LIMIT && -INT64_LIMIT <= next < INT64_LIMIT
      modifies this, output
      ensures Valid() && !exit && (ok ==> connected)
      ensures ok <==> old(Attachable(previous, next, renewable, hasProcess, masterOpen)) && lifecycle.Ready?
                      && setup == Prepared && (hasProcess || started)
                      && (renewable && !hasProcess ==> old(sessionId) < F.MAXIMUM_OFFSET)
      ensures stopping <==>
                old(stopping) || old(EndsAt(previous, next, renewable, hasProcess, masterOpen, lifecycle, setup))
      ensures ok ==> sessionId == old(sessionId) + if renewable && !hasProcess then 1 else 0
      ensures ok && sessionId == old(sessionId) && previous == sessionId ==>
                && 0 <= next <= old(output.delivered) && sender.cursor == Max(next, output.begin)
                && output.acknowledged == Max(old(output.acknowledged), next)
      ensures ok && !(sessionId == old(sessionId) && previous == sessionId) ==> sender.cursor == output.begin
      ensures ok ==> history == History(sender.cursor, [], [], IDLE) && sender.frame == []
      ensures sessionId == old(sessionId) ==> output.stream == old(output.stream) && output.lost == old(output.lost)
      ensures sessionId != old(sessionId) ==> output.stream == [] && output.lost == {}
    {
      hide StreamSound, OutputJournal.Valid;
      var go := Precheck(previous, next, renewable, hasProcess, masterOpen, lifecycle, setup);
      if !go { return false, false; }
      ok, exit := Open(previous, next, renewable && !hasProcess, hasProcess || started);
    }

    /** Everything that an attachment is refused for before it is opened. */
    method Precheck(previous: int, next: int, renewable: bool, hasProcess: bool, masterOpen: bool,
                    lifecycle: Lifecycle, setup: Setup)
      returns (go: bool)
      requires Valid() && -INT64_LIMIT <= previous < INT64_LIMIT && -INT64_LIMIT <= next < INT64_LIMIT
      modifies this`connected, this`sender, this`stopping
      ensures Valid()
      ensures go <==> old(Attachable(previous, next, renewable, hasProcess, masterOpen)) && lifecycle.Ready?
                      && setup == Prepared
      ensures go ==> !stopping && !connected
      ensures !go ==>
                (stopping <==>
                   old(stopping) || old(EndsAt(previous, next, renewable, hasProcess, masterOpen, lifecycle, setup)))
    {
      hide StreamSound;
      if stopping { return false; }
      var ready := CheckLifecycle(lifecycle);
      if !ready { return false; }
      if Unsigned(previous) == sessionId && Unsigned(next) > output.delivered { return false; }
      if previous == 0 && next != 0 { return false; }
      RevokeStream();
      if renewable && hasProcess && (!masterOpen || Unsigned(previous) != sessionId) { return false; }
      if setup != Prepared {
        stopping := setup == Locked(true) || setup == HomeChanged;
        return false;
      }
      return true;
    }

    /** Opens the prepared attachment, under a new identity if the presentation is fresh. */
    method Open(previous: int, next: int, anew: bool, started: bool) returns (ok: bool, exit: bool)
      requires Valid() && !connected && !stopping
      requires -INT64_LIMIT <= previous < INT64_LIMIT && -INT64_LIMIT <= next < INT64_LIMIT
      requires previous == sessionId ==> 0 <= next <= output.delivered
      modifies this, output
      ensures Valid() && !exit && (ok ==> connected)
      ensures ok <==> started && (anew ==> old(sessionId) < F.MAXIMUM_OFFSET)
      ensures stopping <==> anew && old(sessionId) == F.MAXIMUM_OFFSET
      ensures ok ==> sessionId == old(sessionId) + if anew then 1 else 0
      ensures ok && sessionId == old(sessionId) && previous == sessionId ==>
                && 0 <= next <= old(output.delivered) && sender.cursor == Max(next, output.begin)
                && output.acknowledged == Max(old(output.acknowledged), next)
      ensures ok && !(sessionId == old(sessionId) && previous == sessionId) ==> sender.cursor == output.begin
      ensures ok ==> history == History(sender.cursor, [], [], IDLE) && sender.frame == []
      ensures sessionId == old(sessionId) ==> output.stream == old(output.stream) && output.lost == old(output.lost)
      ensures sessionId != old(sessionId) ==> output.stream == [] && output.lost == {}
    {
      hide StreamSound;
      if anew {
        if sessionId == F.MAXIMUM_OFFSET {
          stopping := true;
          return false, false;
        }
        Renew();
      }
      if !started { return false, false; }
      var same := !anew && Unsigned(previous) == sessionId;
      exit := Connect(same, if same then Unsigned(next) else 0);
      return true, exit;
    }

    method AcknowledgeOutput(live: bool, lifecycle: Lifecycle, next: int) returns (ok: bool)
      requires Valid()
      modifies output, this`connected, this`sender, this`stopping
      ensures Valid() && output.stream == old(output.stream) && output.lost == old(output.lost)
      ensures ok <==> live && lifecycle.Ready? && 0 <= next <= output.delivered
      ensures output.acknowledged == if ok then Max(old(output.acknowledged), next) else old(output.acknowledged)
      ensures stopping == (old(stopping) || (live && lifecycle.Failed?))
    {
      hide StreamSound;
      if !live { return false; }
      var ready := CheckLifecycle(lifecycle);
      if !ready || next < 0 { return false; }
      ok := output.Acknowledge(next);
      if connected { SoundLater(sender, history, sessionId, old(Output()), Output()); }
    }

    /** A chunk of output that no longer fits. */
    ghost predicate Overflows(reading: Reading)
      reads output
    {
      reading.Got? && |output.stream| + |reading.chunk| > output.sequenceLimit
    }

    /** Output read from the terminal; a chunk that no longer fits ends the session,
        and so does a broken terminal. */
    method TakeOutput(reading: Reading)
      requires Valid()
      modifies output, this`stopping
      ensures Valid() && stopping == (old(stopping) || old(Overflows(reading)) || reading.Broken?)
      ensures output.stream == if reading.Got? && !old(Overflows(reading))
                               then old(output.stream) + reading.chunk
                               else old(output.stream)
      ensures output.acknowledged == old(output.acknowledged)
    {
      hide StreamSound;
      match reading
      case Quiet =>
      case Broken => stopping := true;
      case Got(chunk) =>
        var ok := output.Append(chunk);
        if !ok { stopping := true; }
        if connected { SoundLater(sender, history, sessionId, old(Output()), Output()); }
    }

    /** Makes a frame of what was read at the cursor. */
    method TakeUp(bytes: seq<Byte>) returns (fault: bool)
      requires Valid() && connected && sender.frame == []
      requires 0 < |bytes| <= F.PAYLOAD_LIMIT && sender.cursor + |bytes| <= output.end
      requires bytes == output.stream[sender.cursor..sender.cursor + |bytes|]
      modifies this`sender, this`history
      ensures Valid() && !fault && sender.frame != [] && sender.frameSent == 0 && sender.cursor == old(sender.cursor)
      ensures history == old(history).(pending := F.Frame(sessionId, sender.cursor, bytes))
    {
      hide StreamSound;
      var f := F.EncodeFrame(F.Frame(sessionId, sender.cursor, bytes));
      TakesUp(sender, history, sessionId, Output(), bytes);
      if f == [] { return true; }
      history := history.(pending := F.Frame(sessionId, sender.cursor, bytes));
      sender := Sender(sender.cursor, f, 0, sender.cursor + |bytes|);
      return false;
    }

    /** Reads at the cursor, which passes over what is no longer retained. */
    method ReadOn() returns (r: Read)
      requires Valid() && connected && sender.frame == []
      modifies this`sender
      ensures Valid() && r.Read? && sender == old(sender).(cursor := r.offset)
      ensures r.offset == Max(old(sender.cursor), output.begin)
              && |r.bytes| == Min(F.PAYLOAD_LIMIT, output.end - r.offset)
      ensures r.bytes == output.stream[r.offset..r.offset + |r.bytes|]
    {
      hide StreamSound;
      r := output.ReadFrom(sender.cursor, F.PAYLOAD_LIMIT);
      Skips(sender, history, sessionId, Output(), r.offset);
      sender := sender.(cursor := r.offset);
    }

    /** Makes the next frame when none is under way and there is output for one. */
    method NextFrame() returns (fault: bool)
      requires Valid() && connected
      modifies this`sender, this`history
      ensures Valid() && !fault && history == old(history).(pending := history.pending)
      ensures old(sender.frame) != [] ==> sender == old(sender) && history == old(history)
      ensures old(sender.frame) == [] ==>
                && sender.cursor == Max(old(sender.cursor), output.begin)
                && (sender.frame == [] <==> sender.cursor == output.end)
                && (sender.frame != [] ==>
                      |history.pending.payload| == Min(F.PAYLOAD_LIMIT, output.end - sender.cursor))
    {
      hide StreamSound;
      if sender.frame != [] { return false; }
      var r := ReadOn();
      if r.bytes == [] { return false; }
      fault := TakeUp(r.bytes);
    }

    /** Sends some of the frame, but not its last byte. */
    method SendPart(count: nat)
      requires Valid() && connected && sender.frame != [] && sender.frameSent + count < |sender.frame|
      modifies this`sender, this`history
      ensures Valid() && sender == old(sender).(frameSent := old(sender.frameSent) + count)
      ensures history == old(history).(wire :=
              old(history.wire + sender.frame[sender.frameSent..sender.frameSent + count]))
    {
      hide StreamSound;
      Progresses(sender, history, sessionId, Output(), count);
      history := history.(wire := history.wire + sender.frame[sender.frameSent..sender.frameSent + count]);
      sender := sender.(frameSent := sender.frameSent + count);
    }

    /** Sends the rest of the frame, which only now counts as delivered. */
    method SendRest() returns (exit: bool)
      requires Valid() && connected && sender.frame != []
      modifies this`sender, this`history, output`delivered
      ensures Valid() && !exit && sender == Sender(old(sender.frameEnd), [], 0, old(sender.frameEnd))
      ensures history.frames == old(history.frames) + [old(history.pending)]
      ensures output.delivered == Max(old(output.delivered), old(sender.frameEnd))
    {
      hide StreamSound;
      SentInside(sender, history, sessionId, Output());
      Completes(sender, history, sessionId, Output());
      var ok := output.Delivered(sender.frameEnd);
      if !ok { return true; }
      history := history.(frames := history.frames + [history.pending],
                          wire := history.wire + sender.frame[sender.frameSent..]);
      sender := Sender(sender.frameEnd, [], 0, sender.frameEnd);
      return false;
    }

    /** Frames what there is and sends what the stream takes. */
    method Emit(sent: Send) returns (exit: bool)
      requires Valid() && connected
      modifies this, output
      ensures Valid() && !exit && stopping == old(stopping) && sessionId == old(sessionId)
              && output.stream == old(output.stream)
      ensures connected ==> old(history.frames) <= history.frames
      ensures connected <==>
                !(sent.SendFailed? && (old(sender.frame) != [] || Max(old(sender.cursor), output.begin) < output.end))
    {
      hide StreamSound;
      var _ := NextFrame();   // never a fault, so never an end of the session here
      if sender.frame == [] { return false; }
      match sent
      case Sent(count) =>
        if sender.frameSent + count < |sender.frame| {
          SendPart(count);
          exit := false;
        } else {
          exit := SendRest();
        }
      case Again => exit := false;
      case SendFailed =>
        RevokeStream();
        exit := false;
    }

    /** One turn of the transfer loop. */
    method Transfer(lifecycle: Lifecycle, reading: Reading, live: bool, sent: Send) returns (exit: bool)
      requires Valid()
      modifies this, output
      ensures Valid() && !exit
      ensures stopping == (|| old(stopping) || lifecycle.Failed?
                           || (lifecycle.Ready? && (old(Overflows(reading)) || reading.Broken?)))
      ensures sessionId == old(sessionId)
      ensures output.stream == if lifecycle.Ready? && reading.Got? && !old(Overflows(reading))
                               then old(output.stream) + reading.chunk
                               else old(output.stream)
      ensures connected ==> old(connected) && lifecycle.Ready? && live && old(history.frames) <= history.frames
    {
      hide StreamSound;
      var ready := CheckLifecycle(lifecycle);
      if !ready {
        RevokeStream();
        return false;
      }
      TakeOutput(reading);
      if !connected || !live {
        RevokeStream();
        return false;
      }
      exit := Emit(sent);
    }
  }
}
