/** The event source that moves frames between a socket, the looper and the senders' write channel. */
module ConnectionSource {
  import opened FrameIO
  import opened Sequences
  import opened Wire

  const WRITE_HIGHWATER_BYTES: nat := 16 * 1024

  datatype PostAction = Continue | Reregister | Remove

  /** The frames that entered a merged queue through the channel, or those that did not, in order. */
  ghost function Chosen(frames: seq<Outgoing>, channelled: seq<bool>, which: bool): seq<Outgoing>
    requires |frames| == |channelled|
  {
    if frames == [] then []
    else
      var n := |frames| - 1;
      var before := Chosen(frames[..n], channelled[..n], which);
      if channelled[n] == which then before + [frames[n]] else before
  }

  lemma {:induction false} ChosenSnoc(frames: seq<Outgoing>, channelled: seq<bool>, f: Outgoing, c: bool, which: bool)
    requires |frames| == |channelled|
    ensures Chosen(frames + [f], channelled + [c], which)
         == if c == which then Chosen(frames, channelled, which) + [f] else Chosen(frames, channelled, which)
  {
    assert (frames + [f])[..|frames|] == frames && (channelled + [c])[..|frames|] == channelled;
  }

  /** Of the encodings of the frames, the bytes past the first `flushed` that came through the channel. */
  ghost function Unsent(frames: seq<Outgoing>, channelled: seq<bool>, flushed: nat): nat
    requires |frames| == |channelled|
  {
    if frames == [] then 0
    else
      var n := |frames| - 1;
      var start, size := |EncodeAll(frames[..n])|, |Encode(frames[n])|;
      Unsent(frames[..n], channelled[..n], flushed) + if channelled[n] then Past(start, size, flushed) else 0
  }

  /** How much of a stretch of bytes lies past a point. */
  function Past(start: nat, size: nat, point: nat): nat {
    if point <= start then size else if point < start + size then start + size - point else 0
  }

  lemma {:induction false} EncodeAllLast(frames: seq<Outgoing>)
    requires frames != []
    ensures |EncodeAll(frames)| == |EncodeAll(frames[..|frames| - 1])| + |Encode(frames[|frames| - 1])|
  {
  }

  lemma {:induction false} UnsentSnoc(frames: seq<Outgoing>, channelled: seq<bool>, f: Outgoing, c: bool, flushed: nat)
    requires |frames| == |channelled| && flushed <= |EncodeAll(frames)|
    ensures Unsent(frames + [f], channelled + [c], flushed)
         == Unsent(frames, channelled, flushed) + if c then |Encode(f)| else 0
  {
    assert (frames + [f])[..|frames|] == frames && (channelled + [c])[..|frames|] == channelled;
  }

  /** At most the bytes past the point, and all of them when every frame came through the channel. */
  lemma {:induction false} UnsentAtMost(frames: seq<Outgoing>, channelled: seq<bool>, flushed: nat)
    requires |frames| == |channelled|
    ensures Unsent(frames, channelled, flushed) <= Past(0, |EncodeAll(frames)|, flushed)
    ensures Chosen(frames, channelled, false) == [] ==>
              Unsent(frames, channelled, flushed) == Past(0, |EncodeAll(frames)|, flushed)
  {
    if frames != [] {
      var n := |frames| - 1;
      UnsentAtMost(frames[..n], channelled[..n], flushed);
      EncodeAllLast(frames);
    }
  }

  lemma {:induction false} UnsentShrinks(frames: seq<Outgoing>, channelled: seq<bool>, flushed: nat, more: nat)
    requires |frames| == |channelled| && flushed <= more
    ensures Unsent(frames, channelled, more) <= Unsent(frames, channelled, flushed)
  {
    if frames != [] {
      UnsentShrinks(frames[..|frames| - 1], channelled[..|frames| - 1], flushed, more);
    }
  }

  ghost predicate AtMost(frames: seq<Outgoing>, size: nat) {
    forall i :: 0 <= i < |frames| ==> |Encode(frames[i])| <= size
  }

  lemma {:induction false} AtMostSnoc(frames: seq<Outgoing>, f: Outgoing, size: nat)
    requires AtMost(frames, size) && |Encode(f)| <= size
    ensures AtMost(frames + [f], size)
  {
  }

  /** The bytes on offer to the socket once the buffer has been filled from the channel up to the mark. */
  ghost function Offered(pending: nat, channel: seq<Outgoing>): nat
    decreases |channel|
  {
    if channel == [] || pending >= WRITE_HIGHWATER_BYTES then pending
    else Offered(pending + |Encode(channel[0])|, channel[1..])
  }

  /** And the frames that stay in the channel. */
  ghost function Left(pending: nat, channel: seq<Outgoing>): seq<Outgoing>
    decreases |channel|
  {
    if channel == [] || pending >= WRITE_HIGHWATER_BYTES then channel
    else Left(pending + |Encode(channel[0])|, channel[1..])
  }

  lemma {:induction false} EncodeAllFirst(frames: seq<Outgoing>)
    requires frames != []
    ensures |EncodeAll(frames)| == |Encode(frames[0])| + |EncodeAll(frames[1..])|
  {
    var n := |frames| - 1;
    if n > 0 {
      EncodeAllFirst(frames[..n]);
      assert frames[..n][1..] == frames[1..][..n - 1];
    }
  }

  /** So many frames of the channel fill the buffer up to the mark: one less would not, and more are not taken. */
  ghost predicate Fills(pending: nat, channel: seq<Outgoing>, n: nat) {
    && n <= |channel|
    && (n < |channel| ==> pending + |EncodeAll(channel[..n])| >= WRITE_HIGHWATER_BYTES)
    && (n > 0 ==> pending + |EncodeAll(channel[..n - 1])| < WRITE_HIGHWATER_BYTES)
  }

  lemma {:induction false} FillsNext(pending: nat, channel: seq<Outgoing>, n: nat)
    requires channel != [] && pending < WRITE_HIGHWATER_BYTES
    requires Fills(pending + |Encode(channel[0])|, channel[1..], n)
    ensures Fills(pending, channel, n + 1)
    ensures |EncodeAll(channel[..n + 1])| == |Encode(channel[0])| + |EncodeAll(channel[1..][..n])|
  {
    EncodeAllFirst(channel[..n + 1]);
    assert channel[..n + 1][1..] == channel[1..][..n];
    if n > 0 {
      EncodeAllFirst(channel[..n]);
      assert channel[..n][1..] == channel[1..][..n - 1];
    }
  }

  /** The channel gives up its shortest prefix that fills the buffer to the mark, or all of it. */
  lemma {:induction false} FilledToMark(pending: nat, channel: seq<Outgoing>) returns (n: nat)
    ensures Fills(pending, channel, n)
    ensures Left(pending, channel) == channel[n..] && Offered(pending, channel) == pending + |EncodeAll(channel[..n])|
    decreases |channel|
  {
    if channel == [] || pending >= WRITE_HIGHWATER_BYTES {
      n := 0;
    } else {
      var m := FilledToMark(pending + |Encode(channel[0])|, channel[1..]);
      FillsNext(pending, channel, m);
      n := m + 1;
    }
  }

  /** The sink fails before so many bytes are out. */
  predicate Breakdown(pending: nat, script: seq<Acceptance>) {
    Room(script) < pending && Fails(script)
  }

  /** How many of so many bytes the sink leaves behind. */
  function Unflushed(pending: nat, script: seq<Acceptance>): nat {
    if pending <= Room(script) then 0 else pending - Room(script)
  }

  /** What the writing of a round amounts to: all the sink has room for goes out, and it is over if the sink fails. */
  predicate Written(writable: bool, offered: nat, room: seq<Acceptance>, action: PostAction, left: nat) {
    && (action == Remove <==> writable && Breakdown(offered, room))
    && left == if writable then Unflushed(offered, room) else offered
  }

  /** Where a round leaves a source that stays open: past everything that was ready. */
  ghost function Behind(readable: bool, script: seq<Arrival>): seq<Arrival> {
    if readable then Lull(script) else script
  }

  /** Two points of a script between which a source never had to wait. */
  ghost predicate SameRound(a: seq<Arrival>, b: seq<Arrival>) {
    Lull(a) == Lull(b) && Hangup(a) == Hangup(b) && Ends(a) == Ends(b)
  }

  // ---- what is passed on ----

  /** A frame for the looper; anything else ends the connection. */
  predicate Deliverable(isControl: seq<byte> -> bool, f: Frame) {
    f.Message? && (f.service == 0 ==> isControl(f.payload))
  }

  predicate AllDeliverable(isControl: seq<byte> -> bool, frames: seq<Frame>) {
    forall f :: f in frames ==> Deliverable(isControl, f)
  }

  /** The frames up to the first that is not deliverable. */
  ghost function Leading(isControl: seq<byte> -> bool, frames: seq<Frame>): seq<Frame> {
    if frames == [] || !Deliverable(isControl, frames[0]) then [] else [frames[0]] + Leading(isControl, frames[1..])
  }

  lemma {:induction false} LeadingAll(isControl: seq<byte> -> bool, events: seq<Frame>, rest: seq<Frame>)
    requires AllDeliverable(isControl, events)
    ensures Leading(isControl, events + rest) == events + Leading(isControl, rest)
  {
    if events == [] {
      assert events + rest == rest;
    } else {
      LeadingAll(isControl, events[1..], rest);
      assert (events + rest)[1..] == events[1..] + rest;
    }
  }

  /** The connection stays open: all of what was ready is deliverable, and nothing follows that ends the stream. */
  ghost predicate StaysOpen(isControl: seq<byte> -> bool, d: Decoded, hangup: bool) {
    d.error == Transport && Leading(isControl, d.frames) == d.frames && !hangup
  }

  lemma {:induction false} PassedOn(isControl: seq<byte> -> bool, d: Decoded, events: seq<Frame>)
    requires d.frames == events && AllDeliverable(isControl, events)
    ensures Leading(isControl, d.frames) == events
  {
    LeadingAll(isControl, events, []);
    assert events + [] == events;
  }

  lemma {:induction false} StoppedAt(
    isControl: seq<byte> -> bool, cfg: Config, ready: seq<byte>, events: seq<Frame>, f: Frame, rest: seq<byte>)
    requires Resumes(cfg, ready, events + [f], rest) && !Deliverable(isControl, f) && AllDeliverable(isControl, events)
    ensures var d := DecodeAll(cfg, ready); Leading(isControl, d.frames) == events && |events| < |d.frames|
  {
    var more := DecodeAll(cfg, rest).frames;
    assert events + [f] + more == events + ([f] + more);
    LeadingAll(isControl, events, [f] + more);
    assert events + [] == events;
  }

  /**
   The stream is over where the delivered frames end: it holds no more and has closed, an error follows, or a
   frame that is not deliverable.
   */
  ghost predicate Cut(isControl: seq<byte> -> bool, d: Decoded, frames: seq<Frame>, ended: bool) {
    || (d.frames == frames && (d.error != Transport || ended))
    || (|frames| < |d.frames| && frames == d.frames[..|frames|] && !Deliverable(isControl, d.frames[|frames|]))
  }

  lemma {:induction false} CutByFrame(isControl: seq<byte> -> bool, cfg: Config, all: seq<byte>, frames: seq<Frame>,
                                      f: Frame, rest: seq<byte>, ended: bool)
    requires Resumes(cfg, all, frames + [f], rest) && !Deliverable(isControl, f)
    ensures Cut(isControl, DecodeAll(cfg, all), frames, ended)
  {
    var d := DecodeAll(cfg, all);
    assert d.frames == frames + [f] + DecodeAll(cfg, rest).frames;
    assert d.frames[|frames|] == f && d.frames[..|frames|] == frames;
  }

  class ConnectionSource {
    const reader: FrameReader
    const writer: FrameWriter
    /** Whether a control payload deserializes. */
    const isControl: seq<byte> -> bool
    var channel: seq<Outgoing>
    var writeInterest: bool
    var hasToken: bool

    /** What senders put in the channel and what the looper wrote directly; which frames of the buffer were which. */
    ghost var posted: seq<Outgoing>
    ghost var direct: seq<Outgoing>
    ghost var channelled: seq<bool>
    /** An upper bound on the encoding of a frame sent through the channel. */
    ghost const largest: nat
    /** The bytes the peer sends, and the frames read from them. */
    ghost const incoming: seq<byte>
    ghost var delivered: seq<Frame>

    /** Every frame accepted is either buffered for the socket or still in the channel, once and in order. */
    ghost predicate NothingLost()
      reads this`channel, this`posted, this`direct, this`channelled, writer
    {
      && |channelled| == |writer.queued|
      && Chosen(writer.queued, channelled, true) + channel == posted
      && Chosen(writer.queued, channelled, false) == direct
    }

    /** The pending bytes that came through the channel stay below the mark plus one largest frame. */
    ghost predicate Bounded()
      reads this`channel, this`channelled, writer
      requires |channelled| == |writer.queued|
    {
      && AtMost(channel, largest)
      && Unsent(writer.queued, channelled, |writer.sent|) <= WRITE_HIGHWATER_BYTES - 1 + largest
    }

    /** So with channel-only writes the whole buffer does. */
    lemma ChannelOnly()
      requires Writing() && direct == []
      ensures writer.PendingBytes() <= WRITE_HIGHWATER_BYTES - 1 + largest
    {
      UnsentAtMost(writer.queued, channelled, |writer.sent|);
    }

    /** The channel's pending bytes are among the buffer's. */
    lemma Among()
      requires writer.Valid() && |channelled| == |writer.queued|
      ensures Unsent(writer.queued, channelled, |writer.sent|) <= writer.PendingBytes()
      ensures |writer.sent| + writer.PendingBytes() == |EncodeAll(writer.queued)|
    {
      assert |writer.sent + writer.buf[writer.flushPos..]| == |writer.sent| + writer.PendingBytes();
      UnsentAtMost(writer.queued, channelled, |writer.sent|);
    }

    ghost predicate Reading(source: Source)
      reads this`delivered, reader, source
    {
      reader.Valid() && Resumes(reader.cfg, incoming, delivered, reader.Pending() + Stream(source.script))
    }

    ghost predicate Writing()
      reads this`channel, this`posted, this`direct, this`channelled, this`writeInterest, writer
    {
      writer.Valid() && NothingLost() && Bounded() && (writeInterest ==> writer.PendingBytes() > 0)
    }

    constructor (maxMessage: nat, isControl: seq<byte> -> bool, ghost largest: nat, source: Source)
      requires maxMessage < U32_MODULUS
      ensures Reading(source) && Writing() && fresh(reader) && fresh(writer)
      ensures incoming == Stream(source.script) && delivered == [] && this.largest == largest
      ensures posted == [] && direct == [] && channel == [] && !writeInterest && !hasToken
    {
      reader := new FrameReader(maxMessage, true);
      writer := new FrameWriter();
      this.isControl := isControl;
      channel, writeInterest, hasToken := [], false, false;
      posted, direct, channelled := [], [], [];
      this.largest := largest;
      incoming, delivered := Stream(source.script), [];
      new;
      ResumesAtStart(reader.cfg, incoming);
      assert [] + incoming == incoming;
    }

    /** Another thread puts a frame in the channel. */
    method Post(f: Outgoing)
      requires Writing() && |Encode(f)| <= largest
      modifies this`channel, this`posted
      ensures Writing() && posted == old(posted) + [f]
    {
      Assoc(Chosen(writer.queued, channelled, true), channel, [f]);
      AtMostSnoc(channel, f, largest);
      channel := channel + [f];
      posted := posted + [f];
    }

    /** The looper thread writes past the channel. */
    method WriteDirect(f: Outgoing)
      requires Writing()
      modifies this`direct, this`channelled, writer
      ensures Writing() && direct == old(direct) + [f]
    {
      ChosenSnoc(writer.queued, channelled, f, false, true);
      ChosenSnoc(writer.queued, channelled, f, false, false);
      Among();
      UnsentSnoc(writer.queued, channelled, f, false, |writer.sent|);
      writer.Enqueue(f);
      channelled := channelled + [false];
      direct := direct + [f];
    }

    /** Move one frame from the channel to the buffer. */
    method TakeOne()
      requires Writing() && channel != [] && writer.PendingBytes() < WRITE_HIGHWATER_BYTES
      modifies this`channel, this`channelled, writer
      ensures Writing() && channel == old(channel)[1..] && writer.sent == old(writer.sent)
      ensures writer.PendingBytes() == old(writer.PendingBytes()) + |Encode(old(channel)[0])|
    {
      var f := channel[0];
      ChosenSnoc(writer.queued, channelled, f, true, true);
      ChosenSnoc(writer.queued, channelled, f, true, false);
      Among();
      UnsentSnoc(writer.queued, channelled, f, true, |writer.sent|);
      assert channel == [f] + channel[1..];
      Assoc(Chosen(writer.queued, channelled, true), [f], channel[1..]);
      writer.Enqueue(f);
      channel := channel[1..];
      channelled := channelled + [true];
    }

    /** Fill the buffer from the channel, frame by frame, up to the mark and no further. */
    method DrainWriteChannel()
      requires Writing()
      modifies this`channel, this`channelled, writer
      ensures Writing() && writer.sent == old(writer.sent)
      ensures channel == Left(old(writer.PendingBytes()), old(channel))
      ensures writer.PendingBytes() == Offered(old(writer.PendingBytes()), old(channel))
    {
      ghost var total, left := Offered(writer.PendingBytes(), channel), Left(writer.PendingBytes(), channel);
      while writer.PendingBytes() < WRITE_HIGHWATER_BYTES && channel != []
        invariant Writing() && writer.sent == old(writer.sent)
        invariant Offered(writer.PendingBytes(), channel) == total && Left(writer.PendingBytes(), channel) == left
        decreases |channel|
      {
        TakeOne();
      }
    }

    /** In the middle of a round that began with `ready` at hand, having passed on some events. */
    ghost predicate Midway(source: Source, ready: seq<byte>, events: seq<Frame>)
      reads reader, source
    {
      && reader.Valid() && AllDeliverable(isControl, events)
      && Resumes(reader.cfg, ready, events, reader.Pending() + Burst(source.script))
    }

    /** A round is over: what was at hand has been passed on as far as it goes. */
    ghost predicate Done(ready: seq<byte>, events: seq<Frame>, open: bool, hangup: bool) {
      var d := DecodeAll(reader.cfg, ready);
      events == Leading(isControl, d.frames) && (open <==> StaysOpen(isControl, d, hangup))
    }

    ghost predicate CutShort(ended: bool)
      reads this`delivered
    {
      Cut(isControl, DecodeAll(reader.cfg, incoming), delivered, ended)
    }

    /** One poll of what is at hand: a frame is passed on, or the connection waits, or it is over. */
    method ReadOne(source: Source, ghost ready: seq<byte>, ghost events: seq<Frame>) returns (r: Outcome)
      requires Reading(source) && Midway(source, ready, events)
      modifies this`delivered, reader, source
      ensures r.Ready? && Deliverable(isControl, r.frame) ==>
                && delivered == old(delivered) + [r.frame] && Reading(source)
                && Midway(source, ready, events + [r.frame]) && Work(source.script) < Work(old(source.script))
                && SameRound(old(source.script), source.script)
      ensures r.NotYet? ==>
                && delivered == old(delivered) && Reading(source) && source.script == Lull(old(source.script))
                && Done(ready, events, true, Hangup(old(source.script)))
      ensures !r.NotYet? && !(r.Ready? && Deliverable(isControl, r.frame)) ==>
                && delivered == old(delivered) && CutShort(Ends(old(source.script)))
                && Done(ready, events, false, Hangup(old(source.script)))
    {
      ghost var before := reader.Pending();
      ghost var taken, pending, ahead;
      r, taken, pending, ahead := Poll(reader, source, reader.cfg, incoming, delivered);
      ghost var burst := if HaltOf(r).Going? then Burst(source.script) else [];
      Assoc(before, taken, burst);
      assert taken + burst == Burst(old(source.script));
      VerdictResumes(reader.cfg, ready, events, before + taken, burst, r);
      if r.Ready? {
        assert pending + burst == burst;
        if Deliverable(isControl, r.frame) {
          delivered := delivered + [r.frame];
        } else {
          CutByFrame(isControl, reader.cfg, incoming, delivered, r.frame, pending + ahead, Ends(old(source.script)));
          StoppedAt(isControl, reader.cfg, ready, events, r.frame, burst);
        }
      } else {
        if r.NotYet? {
          assert before + taken + burst == pending;
          ResumesEnd(reader.cfg, ready, events, pending);
        }
        PassedOn(isControl, DecodeAll(reader.cfg, ready), events);
      }
    }

    /**
     Read until the socket has no more. A round passes on the decoding of what was ready, up to the first frame that
     is not deliverable, and keeps the connection open just when there is none and neither an error nor the end of the
     stream follows. What the looper has been given is at all times the decoding of what the peer sent.
     */
    method ReadFrames(source: Source) returns (open: bool, events: seq<Frame>)
      requires Reading(source)
      modifies this`delivered, reader, source
      ensures delivered == old(delivered) + events && AllDeliverable(isControl, events)
      ensures open ==> Reading(source) && source.script == Lull(old(source.script))
      ensures !open ==> CutShort(Ends(old(source.script)))
      ensures Done(old(reader.Pending()) + Burst(old(source.script)), events, open, Hangup(old(source.script)))
    {
      events := [];
      ghost var start, ready := source.script, reader.Pending() + Burst(source.script);
      ResumesAtStart(reader.cfg, ready);
      while true
        invariant Reading(source) && SameRound(start, source.script)
        invariant delivered == old(delivered) + events && Midway(source, ready, events)
        decreases Work(source.script)
      {
        var r := ReadOne(source, ready, events);
        if r.NotYet? {
          return true, events;
        }
        if r.Fail? || !Deliverable(isControl, r.frame) {
          return false, events;
        }
        Assoc(old(delivered), events, [r.frame]);
        events := events + [r.frame];
      }
    }

    /** What the writer has sent since, the sink has. */
    twostate predicate Delivers(sink: Sink)
      reads writer, sink
    {
      old(writer.sent) <= writer.sent && sink.written == old(sink.written) + writer.sent[|old(writer.sent)|..]
    }

    method Flush(sink: Sink) returns (r: Flushed)
      requires Writing()
      modifies this`writeInterest, writer, sink
      ensures Writing() && Delivers(sink)
      ensures writer.PendingBytes() == Unflushed(old(writer.PendingBytes()), old(sink.script))
      ensures r.Drained? <==> writer.PendingBytes() == 0
      ensures writeInterest == (old(writeInterest) && !r.Drained?)
      ensures r.Error? <==> Breakdown(old(writer.PendingBytes()), old(sink.script))
    {
      ghost var out;
      r, out := writer.TryFlush(sink);
      UnsentShrinks(writer.queued, channelled, |old(writer.sent)|, |writer.sent|);
      if r.Drained? {
        writeInterest := false;
      }
    }

    /** What the reading of a round amounts to: nothing, when the socket is not readable. */
    ghost predicate Read(readable: bool, pending: seq<byte>, script: seq<Arrival>, events: seq<Frame>, open: bool) {
      if readable then Done(pending + Burst(script), events, open, Hangup(script)) else events == [] && open
    }

    method ReadSide(readable: bool, source: Source) returns (open: bool, events: seq<Frame>)
      requires Reading(source)
      modifies this`delivered, reader, source
      ensures delivered == old(delivered) + events
      ensures open ==> Reading(source) && source.script == Behind(readable, old(source.script))
      ensures !open ==> CutShort(Ends(old(source.script)))
      ensures Read(readable, old(reader.Pending()), old(source.script), events, open)
    {
      if readable {
        open, events := ReadFrames(source);
      } else {
        open, events := true, [];
      }
    }

    method WriteSide(writable: bool, sink: Sink) returns (action: PostAction)
      requires Writing()
      modifies this`writeInterest, writer, sink
      ensures Writing() && Delivers(sink)
      ensures Written(writable, old(writer.PendingBytes()), old(sink.script), action, writer.PendingBytes())
      ensures action != Remove ==> (writeInterest <==> writer.PendingBytes() > 0)
      ensures action == Reregister ==> writeInterest != old(writeInterest)
      ensures action == Continue ==> writeInterest == old(writeInterest)
    {
      action := Continue;
      if writable {
        var was := writeInterest;
        var r := Flush(sink);
        if r.Error? {
          return Remove;
        }
        if writeInterest != was {
          action := Reregister;
        }
      }
      if writer.PendingBytes() > 0 && !writeInterest {
        writeInterest := true;
        action := Reregister;
      }
    }

    /** What a round amounts to: the reading, and if the connection is still open, the writing. */
    ghost predicate Round(readable: bool, pending: seq<byte>, script: seq<Arrival>, events: seq<Frame>,
                          writable: bool, offered: nat, room: seq<Acceptance>, action: PostAction, left: nat)
    {
      || (Read(readable, pending, script, events, true) && Written(writable, offered, room, action, left))
      || (Read(readable, pending, script, events, false) && action == Remove && left == offered)
    }

    /** Read, and if the connection is still open, write. */
    method BothSides(readable: bool, writable: bool, source: Source, sink: Sink)
      returns (action: PostAction, events: seq<Frame>)
      requires Reading(source) && Writing()
      modifies this`writeInterest, this`delivered, reader, writer, source, sink
      ensures Writing() && Delivers(sink) && delivered == old(delivered) + events
      ensures Round(readable, old(reader.Pending()), old(source.script), events,
                    writable, old(writer.PendingBytes()), old(sink.script), action, writer.PendingBytes())
      ensures action != Remove ==> Reading(source) && source.script == Behind(readable, old(source.script))
      ensures action != Remove ==> (writeInterest <==> writer.PendingBytes() > 0)
      ensures action == Reregister ==> writeInterest != old(writeInterest)
      ensures action == Continue ==> writeInterest == old(writeInterest)
      ensures action == Remove ==>
                || (readable && CutShort(Ends(old(source.script))))
                || (writable && Breakdown(old(writer.PendingBytes()), old(sink.script)))
    {
      var open;
      open, events := ReadSide(readable, source);
      if open {
        action := WriteSide(writable, sink);
      } else {
        action := Remove;
      }
    }

    /**
     One round of socket work: what was ready is read, and of what the buffer and the channel held, as much is written
     as the sink has room for. The connection is over just when the reading says so, or the sink fails before
     everything is out. Otherwise write interest is registered exactly when bytes are still pending, and a
     re-registration is asked for exactly when that changed.
     */
    method ProcessEvents(readable: bool, writable: bool, source: Source, sink: Sink)
      returns (action: PostAction, events: seq<Frame>)
      requires Reading(source) && Writing()
      modifies this`channel, this`channelled, this`writeInterest, this`hasToken, this`delivered, reader, writer,
          source, sink
      ensures hasToken && Writing() && Delivers(sink) && delivered == old(delivered) + events
      ensures channel == Left(old(writer.PendingBytes()), old(channel))
      ensures Round(readable, old(reader.Pending()), old(source.script), events, writable,
                    Offered(old(writer.PendingBytes()), old(channel)), old(sink.script), action, writer.PendingBytes())
      ensures action != Remove ==> Reading(source) && source.script == Behind(readable, old(source.script))
      ensures action != Remove ==> (writeInterest <==> writer.PendingBytes() > 0)
      ensures action == Reregister ==> writeInterest != old(writeInterest)
      ensures action == Continue ==> writeInterest == old(writeInterest)
      ensures action == Remove ==>
                || (readable && CutShort(Ends(old(source.script))))
                || (writable && Breakdown(Offered(old(writer.PendingBytes()), old(channel)), old(sink.script)))
    {
      hasToken := true;
      DrainWriteChannel();
      action, events := BothSides(readable, writable, source, sink);
    }

    /** Ask to be woken exactly when there is something to write, whichever way it came in. */
    method BeforeSleep() returns (wake: bool)
      requires Writing()
      modifies this`channel, this`channelled, writer
      ensures Writing()
      ensures wake <==> hasToken && (old(channel) != [] || old(writer.PendingBytes()) > 0)
      ensures if old(writer.PendingBytes()) == 0 && old(channel) != []
              then channel == old(channel)[1..] && writer.PendingBytes() == |Encode(old(channel)[0])|
              else channel == old(channel) && writer.PendingBytes() == old(writer.PendingBytes())
      ensures writer.sent == old(writer.sent)
    {
      if writer.IsEmpty() && channel != [] {
        TakeOne();
      }
      wake := !writer.IsEmpty() && hasToken;
    }
  }
}
