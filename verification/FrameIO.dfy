/** Reading and writing frames: the blocking codec, and the incremental reader and writer. */
module FrameIO {
  import opened Sequences
  import opened Wire

  // ---- where bytes come from ----

  type Chunk = s: seq<byte> | |s| > 0 witness [0]

  /** What a source has in store: bytes, in pieces, and the ways a read can return without any. */
  datatype Arrival = Data(bytes: Chunk) | WouldBlock | Interrupted | Eof | Failure

  /** The bytes up to the end of the stream, however they are cut up. */
  ghost function Stream(script: seq<Arrival>): seq<byte> {
    if script == [] then []
    else match script[0]
      case Data(bytes) => bytes + Stream(script[1..])
      case WouldBlock => Stream(script[1..])
      case Interrupted => Stream(script[1..])
      case Eof => []
      case Failure => []
  }

  /** The script closes the stream or breaks it. */
  ghost predicate Ends(script: seq<Arrival>) {
    script != [] && (script[0].Eof? || script[0].Failure? || Ends(script[1..]))
  }

  ghost predicate Blocking(script: seq<Arrival>) {
    script == [] || (!script[0].WouldBlock? && Blocking(script[1..]))
  }

  ghost function Work(script: seq<Arrival>): nat {
    if script == [] then 0
    else (if script[0].Data? then 1 + |script[0].bytes| else 1) + Work(script[1..])
  }

  /** `taken` was read between two points of a script; `ended` says the stream finished there. */
  ghost predicate Fed(before: seq<Arrival>, taken: seq<byte>, after: seq<Arrival>, ended: bool) {
    && (if ended then Stream(before) == taken && Ends(before)
        else Stream(before) == taken + Stream(after) && Ends(after) == Ends(before))
    && Work(after) <= Work(before)
    && (taken != [] ==> Work(after) < Work(before))
  }

  lemma {:induction false} FedTwice(
    a: seq<Arrival>, t: seq<byte>, b: seq<Arrival>, u: seq<byte>, c: seq<Arrival>, ended: bool)
    requires Fed(a, t, b, false) && Fed(b, u, c, ended)
    ensures Fed(a, t + u, c, ended)
  {
  }

  // ---- what a source has ready ----

  /** The bytes that can be read before the source next has to wait, or is over. */
  ghost function Burst(script: seq<Arrival>): seq<byte> {
    if script == [] then []
    else match script[0]
      case Data(bytes) => bytes + Burst(script[1..])
      case Interrupted => Burst(script[1..])
      case WouldBlock => []
      case Eof => []
      case Failure => []
  }

  /** The script from there on. */
  ghost function Lull(script: seq<Arrival>): seq<Arrival> {
    if script == [] then []
    else if script[0].Data? || script[0].Interrupted? then Lull(script[1..])
    else script[1..]
  }

  /** The source is over there: what stops the reading is the end of the stream or a failure. */
  ghost predicate Hangup(script: seq<Arrival>) {
    script != [] && match script[0]
      case Data(_) => Hangup(script[1..])
      case Interrupted => Hangup(script[1..])
      case WouldBlock => false
      case Eof => true
      case Failure => true
  }

  /** How a stretch of reading stopped: the source has more ready, has to wait, or is over. */
  datatype Halt = Going | Paused | Over

  /** `taken` was read between two points of a script without ever waiting. */
  ghost predicate Within(before: seq<Arrival>, taken: seq<byte>, after: seq<Arrival>, halt: Halt) {
    match halt
    case Going =>
      Burst(before) == taken + Burst(after) && Lull(before) == Lull(after) && Hangup(before) == Hangup(after)
    case Paused => Burst(before) == taken && Lull(before) == after && !Hangup(before)
    case Over => Burst(before) == taken && Hangup(before)
  }

  lemma {:induction false} WithinTwice(
    a: seq<Arrival>, t: seq<byte>, b: seq<Arrival>, u: seq<byte>, c: seq<Arrival>, halt: Halt)
    requires Within(a, t, b, Going) && Within(b, u, c, halt)
    ensures Within(a, t + u, c, halt)
  {
  }

  datatype ReadResult = Bytes(data: Chunk) | NotReady | Retry | Closed | Broken

  /** One read call, as a stretch of reading. */
  ghost predicate ReadsWithin(before: seq<Arrival>, r: ReadResult, after: seq<Arrival>) {
    match r
    case Bytes(data) => Within(before, data, after, Going)
    case Retry => Within(before, [], after, Going)
    case NotReady => Within(before, [], after, Paused)
    case Closed => Within(before, [], after, Over)
    case Broken => Within(before, [], after, Over)
  }

  class Source {
    var script: seq<Arrival>

    constructor (script: seq<Arrival>)
      ensures this.script == script
    {
      this.script := script;
    }

    /** One read call with room for `room` bytes. An exhausted script has nothing more to give yet. */
    method Read(room: nat) returns (r: ReadResult)
      requires room > 0
      modifies this
      ensures r.Bytes? ==> |r.data| <= room && Stream(old(script)) == r.data + Stream(script)
      ensures r.NotReady? || r.Retry? ==> Stream(old(script)) == Stream(script)
      ensures r.Closed? || r.Broken? ==> Stream(old(script)) == [] && Ends(old(script))
      ensures r.Bytes? || r.NotReady? || r.Retry? ==> Ends(script) == Ends(old(script))
      ensures Work(script) <= Work(old(script)) && (old(script) != [] ==> Work(script) < Work(old(script)))
      ensures r.Bytes? || r.Retry? ==> old(script) != []
      ensures Blocking(old(script)) ==> Blocking(script) && (r.NotReady? ==> old(script) == [])
      ensures ReadsWithin(old(script), r, script)
    {
      if script == [] {
        return NotReady;
      }
      var head := script[0];
      script := script[1..];
      match head
      case WouldBlock => r := NotReady;
      case Interrupted => r := Retry;
      case Eof => r := Closed;
      case Failure => r := Broken;
      case Data(bytes) =>
        if |bytes| <= room {
          r := Bytes(bytes);
        } else {
          r := Bytes(bytes[..room]);
          ghost var rest := script;
          script := [Data(bytes[room..])] + script;
          assert script[1..] == rest;
          assert bytes == bytes[..room] + bytes[room..];
        }
    }
  }

  // ---- the incremental reader ----

  function Zeros(n: nat): seq<byte> { seq(n, _ => 0) }

  /** Vec::resize: keep what fits, pad with zeros. */
  function Resize(buf: seq<byte>, n: nat): (r: seq<byte>)
    ensures |r| == n
  {
    if n <= |buf| then buf[..n] else buf + Zeros(n - |buf|)
  }

  /** What a read into the middle of a buffer leaves there. */
  function Overwrite(buf: seq<byte>, at: nat, data: seq<byte>): (r: seq<byte>)
    requires at + |data| <= |buf|
    ensures |r| == |buf| && r[..at + |data|] == buf[..at] + data
  {
    buf[..at] + data + buf[at + |data|..]
  }

  datatype Progress = Complete | Later | AtEof | Failed

  function HaltAt(p: Progress): Halt {
    match p
    case Complete => Going
    case Later => Paused
    case AtEof => Over
    case Failed => Over
  }

  datatype ReadState = Length | Body(bodyLen: nat)

  datatype Outcome = Ready(frame: Frame) | NotYet | Fail(error: Error)

  /** Where each outcome leaves the source. */
  function HaltOf(r: Outcome): Halt {
    if r.NotYet? then Paused else if r == Fail(Transport) then Over else Going
  }

  lemma {:induction false} Headed(head: seq<byte>, body: seq<byte>)
    requires |head| == 4
    ensures (head + body)[..4] == head && (head + body)[4..4 + |body|] == body
  {
  }

  class FrameReader {
    const max: nat
    const permissive: bool
    var buf: seq<byte>
    var filled: nat
    var state: ReadState

    ghost const cfg: Config := Config(max, permissive, {0})

    /** A full buffer survives a call only when its contents are an error. */
    ghost predicate Valid()
      reads this
    {
      && max < U32_MODULUS
      && filled <= |buf|
      && match state
         case Length => |buf| == 4 && (filled == 4 ==> Parse(cfg, buf).Bad?)
         case Body(n) => |buf| == n && 2 <= n <= max && (filled == n ==> ParseBody(cfg, buf).Bad?)
    }

    /** The bytes of the current frame read so far, length prefix included. */
    ghost function Pending(): seq<byte>
      requires Valid()
      reads this
    {
      match state
      case Length => buf[..filled]
      case Body(n) => Le4(n) + buf[..filled]
    }

    constructor (max: nat, permissive: bool)
      requires max < U32_MODULUS
      ensures Valid() && this.max == max && this.permissive == permissive && Pending() == []
    {
      this.max := max;
      this.permissive := permissive;
      buf, filled, state := Zeros(4), 0, Length;
    }

    /** Fill the buffer, or stop where the source does. */
    method ReadInto(source: Source) returns (p: Progress, ghost taken: seq<byte>)
      requires filled <= |buf|
      modifies this`buf, this`filled, source
      ensures filled <= |buf| == |old(buf)| && buf[..filled] == old(buf[..filled]) + taken
      ensures p.Complete? <==> filled == |buf|
      ensures Fed(old(source.script), taken, source.script, p.AtEof? || p.Failed?)
      ensures Within(old(source.script), taken, source.script, HaltAt(p))
      ensures p.Later? && Ends(old(source.script)) ==> Work(source.script) < Work(old(source.script))
      ensures old(filled) == |old(buf)| ==> source.script == old(source.script)
    {
      taken := [];
      while filled < |buf|
        invariant filled <= |buf| == |old(buf)| && buf[..filled] == old(buf[..filled]) + taken
        invariant Fed(old(source.script), taken, source.script, false)
        invariant Within(old(source.script), taken, source.script, Going)
        invariant old(filled) == |old(buf)| ==> source.script == old(source.script)
        decreases Work(source.script)
      {
        ghost var before := source.script;
        var r := source.Read(|buf| - filled);
        assert taken + [] == taken;
        match r
        case Bytes(data) =>
          WithinTwice(old(source.script), taken, before, data, source.script, Going);
          FedTwice(old(source.script), taken, before, data, source.script, false);
          Assoc(old(buf[..filled]), taken, data);
          buf := Overwrite(buf, filled, data);
          filled := filled + |data|;
          taken := taken + data;
        case Retry => WithinTwice(old(source.script), taken, before, [], source.script, Going);
        case NotReady =>
          WithinTwice(old(source.script), taken, before, [], source.script, Paused);
          return Later, taken;
        case Closed =>
          WithinTwice(old(source.script), taken, before, [], source.script, Over);
          return AtEof, taken;
        case Broken =>
          WithinTwice(old(source.script), taken, before, [], source.script, Over);
          return Failed, taken;
      }
      return Complete, taken;
    }

    /** The length prefix: either this poll is over, or the body comes next. */
    method ReadLength(source: Source) returns (over: bool, r: Outcome, ghost taken: seq<byte>)
      requires Valid() && state.Length?
      modifies this`buf, this`filled, this`state, source
      ensures Valid() && Pending() == old(Pending()) + taken
              && Fed(old(source.script), taken, source.script, r == Fail(Transport))
      ensures Within(old(source.script), taken, source.script, if over then HaltOf(r) else Going)
      ensures !over ==> state.Body? && filled == 0 && r == NotYet && taken != []
      ensures over ==> !r.Ready? && (r.NotYet? || r == Fail(Transport) ==> Parse(cfg, Pending()).NeedMore?)
      ensures over && r.Fail? && r.error != Transport ==> Parse(cfg, Pending()) == Bad(r.error)
      ensures over && r.NotYet? && Ends(old(source.script)) ==> Work(source.script) < Work(old(source.script))
      ensures old(filled) == 4 ==> over && r.Fail? && r.error != Transport && taken == []
                                   && source.script == old(source.script)
    {
      var p;
      p, taken := ReadInto(source);
      match p {
        case Later => return true, NotYet, taken;
        case AtEof => return true, Fail(Transport), taken;
        case Failed => return true, Fail(Transport), taken;
        case Complete =>
      }
      assert buf[..4] == buf;
      var length := FromLe4(buf);
      if length < 2 {
        return true, Fail(TooShort(length)), taken;
      }
      if length > max {
        return true, Fail(Oversized(length, max)), taken;
      }
      Le4Inverse(length, buf);
      ghost var prefix := buf;
      buf := Resize(buf, length);
      filled := 0;
      state := Body(length);
      assert Le4(length) + buf[..0] == prefix;
      return false, NotYet, taken;
    }

    /** The body: a frame, an unknown service, or not enough yet. */
    method ReadBody(source: Source) returns (r: Outcome, ghost taken: seq<byte>)
      requires Valid() && state.Body?
      modifies this`buf, this`filled, this`state, source
      ensures Valid() && Fed(old(source.script), taken, source.script, r == Fail(Transport))
      ensures Within(old(source.script), taken, source.script, HaltOf(r))
      ensures r.Ready? ==> Pending() == [] && taken != []
                           && Parse(cfg, old(Pending()) + taken) == Got(r.frame, |old(Pending()) + taken|)
      ensures !r.Ready? ==> Pending() == old(Pending()) + taken
      ensures r.NotYet? || r == Fail(Transport) ==> Parse(cfg, Pending()).NeedMore?
      ensures r.Fail? && r.error != Transport ==> Parse(cfg, Pending()) == Bad(r.error)
      ensures r.NotYet? && Ends(old(source.script)) ==> Work(source.script) < Work(old(source.script))
      ensures old(filled) == |old(buf)| ==>
                r.Fail? && r.error != Transport && taken == [] && source.script == old(source.script)
    {
      var n := state.bodyLen;
      ghost var head := Le4(n);
      Le4Inverse(n, head);
      var p;
      p, taken := ReadInto(source);
      ghost var whole := head + buf[..filled];
      Headed(head, buf[..filled]);
      assert whole == old(Pending()) + taken;
      match p {
        case Later => return NotYet, taken;
        case AtEof => return Fail(Transport), taken;
        case Failed => return Fail(Transport), taken;
        case Complete =>
      }
      assert buf[..filled] == buf && buf[2..n] == buf[2..];
      assert Parse(cfg, whole) == ParseBody(cfg, buf);
      var service := FromLe2(buf[..2]);
      var frame;
      if service == ABORT {
        frame := Abort;
      } else if !permissive && service != 0 {
        return Fail(UnknownService(service)), taken;
      } else {
        frame := Message(service, buf[2..n]);
      }
      buf := Resize(buf, 4);
      filled := 0;
      state := Length;
      return Ready(frame), taken;
    }

    /**
     One poll. The verdict is the reference parser's on the bytes of the frame read so far, and nothing is
     read past the frame. A protocol error stays put: every later call repeats it and reads nothing.
     */
    method TryReadFrame(source: Source) returns (r: Outcome, ghost taken: seq<byte>)
      requires Valid()
      modifies this`buf, this`filled, this`state, source
      ensures Valid() && Fed(old(source.script), taken, source.script, r == Fail(Transport))
      ensures Within(old(source.script), taken, source.script, HaltOf(r))
      ensures r.Ready? ==> Pending() == [] && taken != []
                           && Parse(cfg, old(Pending()) + taken) == Got(r.frame, |old(Pending()) + taken|)
      ensures !r.Ready? ==> Pending() == old(Pending()) + taken
      ensures r.NotYet? || r == Fail(Transport) ==> Parse(cfg, Pending()).NeedMore?
      ensures r.Fail? && r.error != Transport ==> Parse(cfg, Pending()) == Bad(r.error)
      ensures r.NotYet? && Ends(old(source.script)) ==> Work(source.script) < Work(old(source.script))
      ensures Parse(cfg, old(Pending())).Bad? ==>
                r == Fail(Parse(cfg, old(Pending())).error) && taken == [] && source.script == old(source.script)
    {
      LatchedWhenFull();
      taken := [];
      ghost var start, mid := Pending(), source.script;
      assert start + taken == start && taken + Burst(mid) == Burst(mid);
      // The state only moves from the length to the body, so the poll passes each at most once.
      if state.Length? {
        var over;
        over, r, taken := ReadLength(source);
        mid := source.script;
        if over {
          return;
        }
      }
      assert Pending() == start + taken;
      ghost var more;
      r, more := ReadBody(source);
      FedTwice(old(source.script), taken, mid, more, source.script, r == Fail(Transport));
      WithinTwice(old(source.script), taken, mid, more, source.script, HaltOf(r));
      Assoc(start, taken, more);
      taken := taken + more;
    }

    /** The pending bytes hold an error exactly when the buffer was left full. */
    lemma LatchedWhenFull()
      requires Valid()
      ensures Parse(cfg, Pending()).Bad? <==> filled == |buf|
      ensures !Parse(cfg, Pending()).Got?
    {
      match state
      case Length => assert filled == 4 ==> buf[..4] == buf;
      case Body(n) =>
        Le4Inverse(n, Le4(n));
        assert Pending()[..4] == Le4(n);
        assert filled == n ==> Pending()[4..4 + n] == buf;
    }
  }

  /** What a read says of the bytes it had to go on: a frame, an error of the stream, or that it is not over. */
  predicate Verdict(cfg: Config, seen: seq<byte>, ahead: seq<byte>, r: Outcome) {
    match r
    case Ready(frame) => Parse(cfg, seen) == Got(frame, |seen|)
    case NotYet => true
    case Fail(e) => if e == Transport then ahead == [] && Parse(cfg, seen).NeedMore? else Parse(cfg, seen) == Bad(e)
  }

  lemma {:induction false} VerdictResumes(
    cfg: Config, all: seq<byte>, frames: seq<Frame>, seen: seq<byte>, ahead: seq<byte>, r: Outcome)
    requires Resumes(cfg, all, frames, seen + ahead) && Verdict(cfg, seen, ahead, r)
    ensures r.Ready? ==> Resumes(cfg, all, frames + [r.frame], ahead)
    ensures r.Fail? ==> DecodeAll(cfg, all) == Decoded(frames, r.error)
  {
    match r
    case Ready(frame) => ResumesAfter(cfg, all, frames, seen, frame, ahead);
    case NotYet =>
    case Fail(e) =>
      if e == Transport {
        assert seen + ahead == seen;
        ResumesEnd(cfg, all, frames, seen);
      } else {
        ResumesBad(cfg, all, frames, seen, ahead);
      }
  }

  /** One poll within a stream of which some frames have been delivered. */
  method Poll(reader: FrameReader, source: Source, ghost cfg: Config, ghost all: seq<byte>, ghost frames: seq<Frame>)
    returns (r: Outcome, ghost taken: seq<byte>, ghost pending: seq<byte>, ghost ahead: seq<byte>)
    requires reader.Valid() && cfg == reader.cfg
    requires Resumes(cfg, all, frames, reader.Pending() + Stream(source.script))
    modifies reader, source
    ensures reader.Valid() && pending == reader.Pending() && (!r.Fail? ==> ahead == Stream(source.script))
    ensures r.Ready? || (r.NotYet? && Ends(old(source.script))) ==> Work(source.script) < Work(old(source.script))
    ensures !r.Fail? ==> Ends(source.script) == Ends(old(source.script))
    ensures r == Fail(Transport) ==> Ends(old(source.script))
    ensures r.Ready? ==> Resumes(cfg, all, frames + [r.frame], pending + ahead)
    ensures r.NotYet? ==> Resumes(cfg, all, frames, pending + ahead)
    ensures r.Fail? ==> DecodeAll(cfg, all) == Decoded(frames, r.error)
    ensures Within(old(source.script), taken, source.script, HaltOf(r))
    ensures Verdict(cfg, old(reader.Pending()) + taken, if HaltOf(r).Going? then Burst(source.script) else [], r)
    ensures r.NotYet? ==> Parse(cfg, pending).NeedMore?
    ensures pending == if r.Ready? then [] else old(reader.Pending()) + taken
  {
    ghost var before := reader.Pending();
    r, taken := reader.TryReadFrame(source);
    pending, ahead := reader.Pending(), if r == Fail(Transport) then [] else Stream(source.script);
    Assoc(before, taken, ahead);
    assert taken + ahead == Stream(old(source.script));
    assert Verdict(cfg, before + taken, ahead, r);
    VerdictResumes(cfg, all, frames, before + taken, ahead, r);
    if r.Ready? {
      assert pending + ahead == ahead;
    }
  }

  /**
   Polling to the end of the stream. However the bytes are cut up, and wherever the source would block or is
   interrupted, the frames and the error that ends them are the reference decoder's on the bytes alone.
   */
  method ReadToEnd(reader: FrameReader, source: Source) returns (d: Decoded)
    requires reader.Valid() && Ends(source.script)
    modifies reader, source
    ensures d == DecodeAll(reader.cfg, old(reader.Pending() + Stream(source.script)))
  {
    ghost var all := reader.Pending() + Stream(source.script);
    var frames := [];
    ghost var cfg, pending, ahead := reader.cfg, reader.Pending(), Stream(source.script);
    ResumesAtStart(cfg, all);
    while true
      invariant reader.Valid() && Ends(source.script) && cfg == reader.cfg
      invariant pending == reader.Pending() && ahead == Stream(source.script)
      invariant Resumes(cfg, all, frames, pending + ahead)
      decreases Work(source.script)
    {
      var r;
      ghost var taken;
      r, taken, pending, ahead := Poll(reader, source, cfg, all, frames);
      match r
      case Ready(frame) => frames := frames + [frame];
      case NotYet =>
      case Fail(e) => return Decoded(frames, e);
    }
  }

  // ---- the blocking codec ----

  class FrameCodec {
    const cfg: Config
    var poisoned: bool

    constructor (cfg: Config)
      ensures this.cfg == cfg && !poisoned
    {
      this.cfg := cfg;
      poisoned := false;
    }

    /** read_exact: retry interruptions, fail on anything else that is not data. */
    static method ReadExact(n: nat, source: Source) returns (ok: bool, data: seq<byte>)
      modifies source
      ensures ok ==> |data| == n && Fed(old(source.script), data, source.script, false)
      ensures ok && Blocking(old(source.script)) ==> Blocking(source.script)
      ensures !ok && Blocking(old(source.script)) && Ends(old(source.script)) ==> |Stream(old(source.script))| < n
    {
      data := [];
      while |data| < n
        invariant |data| <= n && Fed(old(source.script), data, source.script, false)
        invariant Blocking(old(source.script)) ==> Blocking(source.script)
        decreases Work(source.script)
      {
        ghost var before := source.script;
        var r := source.Read(n - |data|);
        match r
        case Bytes(more) =>
          FedTwice(old(source.script), data, before, more, source.script, false);
          data := data + more;
        case Retry =>
        case _ => return false, data;
      }
      return true, data;
    }

    method ReadFrameInner(source: Source) returns (r: Outcome)
      requires cfg.max < U32_MODULUS
      modifies source
      ensures !r.NotYet?
      ensures Blocking(old(source.script)) && Ends(old(source.script)) ==>
                match Parse(cfg, Stream(old(source.script)))
                case Got(frame, n) => r == Ready(frame) && Stream(source.script) == Stream(old(source.script))[n..]
                                      && Blocking(source.script) && Ends(source.script)
                case Bad(e) => r == Fail(e)
                case NeedMore => r == Fail(Transport)
    {
      ghost var all := Stream(source.script);
      var ok, prefix := ReadExact(4, source);
      if !ok {
        return Fail(Transport);
      }
      assert all[..4] == prefix;
      var length := FromLe4(prefix);
      if length < 2 {
        return Fail(TooShort(length));
      }
      if length > cfg.max {
        return Fail(Oversized(length, cfg.max));
      }
      ghost var rest := Stream(source.script);
      var body;
      ok, body := ReadExact(length, source);
      if !ok {
        return Fail(Transport);
      }
      assert all == prefix + rest && rest == body + Stream(source.script);
      assert all[4..4 + length] == body && all[4 + length..] == Stream(source.script);
      var service := FromLe2(body[..2]);
      if service == ABORT {
        return Ready(Abort);
      }
      if !cfg.permissive && service !in cfg.known {
        return Fail(UnknownService(service));
      }
      return Ready(Message(service, body[2..]));
    }

    /** One blocking read; any error poisons the codec, and a poisoned codec never touches the source again. */
    method ReadFrame(source: Source) returns (r: Outcome)
      requires cfg.max < U32_MODULUS
      modifies this, source
      ensures old(poisoned) ==> r == Fail(Poisoned) && source.script == old(source.script)
      ensures poisoned <==> r.Fail?
      ensures !old(poisoned) && Blocking(old(source.script)) && Ends(old(source.script)) ==>
                match Parse(cfg, Stream(old(source.script)))
                case Got(frame, n) => r == Ready(frame) && Stream(source.script) == Stream(old(source.script))[n..]
                                      && Blocking(source.script) && Ends(source.script)
                case Bad(e) => r == Fail(e)
                case NeedMore => r == Fail(Transport)
    {
      if poisoned {
        return Fail(Poisoned);
      }
      r := ReadFrameInner(source);
      if r.Fail? {
        poisoned := true;
      }
    }
  }

  /** Reading to the end of a stream by blocking. The frames and the error are the reference decoder's on the bytes. */
  method BlockingReadToEnd(codec: FrameCodec, source: Source) returns (d: Decoded)
    requires codec.cfg.max < U32_MODULUS && !codec.poisoned && Blocking(source.script) && Ends(source.script)
    modifies codec, source
    ensures d == DecodeAll(codec.cfg, Stream(old(source.script)))
  {
    ghost var all := Stream(source.script);
    var frames := [];
    ResumesAtStart(codec.cfg, all);
    while true
      invariant !codec.poisoned && Blocking(source.script) && Ends(source.script)
      invariant Resumes(codec.cfg, all, frames, Stream(source.script))
      decreases |Stream(source.script)|
    {
      ghost var rest := Stream(source.script);
      var r := codec.ReadFrame(source);
      match r
      case Ready(frame) =>
        ResumesGot(codec.cfg, all, frames, rest, frame, Parse(codec.cfg, rest).length);
        frames := frames + [frame];
      case Fail(e) =>
        assert rest + [] == rest;
        VerdictResumes(codec.cfg, all, frames, rest, [], r);
        return Decoded(frames, e);
    }
  }

  /**
   The incremental reader and the blocking codec on the same bytes, one in whatever pieces they come, the other
   waiting for them. They agree on every stream just when DecodeAlikeExactly says so; the permissive pair always does.
   */
  method ReadBothWays(reader: FrameReader, pieces: Source, codec: FrameCodec, whole: Source)
    returns (d: Decoded, e: Decoded)
    requires reader.Valid() && reader.Pending() == [] && Ends(pieces.script)
    requires codec.cfg.max < U32_MODULUS && !codec.poisoned && Blocking(whole.script) && Ends(whole.script)
    requires pieces != whole && Stream(pieces.script) == Stream(whole.script)
    modifies reader, pieces, codec, whole
    ensures d == DecodeAll(reader.cfg, Stream(old(pieces.script)))
            && e == DecodeAll(codec.cfg, Stream(old(pieces.script)))
    ensures reader.max == codec.cfg.max && (reader.max < 2 || SameServices(reader.cfg, codec.cfg)) ==> d == e
    ensures reader.max == codec.cfg.max && reader.permissive && codec.cfg.permissive ==> d == e
  {
    ghost var s := Stream(pieces.script);
    assert [] + s == s;
    d := ReadToEnd(reader, pieces);
    e := BlockingReadToEnd(codec, whole);
    if reader.max == codec.cfg.max && (reader.max < 2 || SameServices(reader.cfg, codec.cfg)) {
      DecodeAlike(reader.cfg, codec.cfg, s);
    }
  }

  // ---- the write buffer ----

  /** What a sink does with a write: take up to so many bytes, or return without any. */
  datatype Acceptance = Takes(most: nat) | Refuses | Signalled | Breaks

  class Sink {
    var script: seq<Acceptance>
    /** Everything the sink has taken. */
    ghost var written: seq<byte>

    constructor (script: seq<Acceptance>)
      ensures this.script == script && written == []
    {
      this.script := script;
      written := [];
    }
  }

  /** How many bytes the sink takes before it next has to wait, or fails. */
  function Room(script: seq<Acceptance>): nat {
    if script == [] then 0
    else match script[0]
      case Takes(most) => if most == 0 then 0 else most + Room(script[1..])
      case Signalled => Room(script[1..])
      case Refuses => 0
      case Breaks => 0
  }

  /** What stops it there is a failure: it breaks, or takes nothing at all. */
  predicate Fails(script: seq<Acceptance>) {
    script != [] && match script[0]
      case Takes(most) => most == 0 || Fails(script[1..])
      case Signalled => Fails(script[1..])
      case Refuses => false
      case Breaks => true
  }

  function Min(a: nat, b: nat): nat { if a <= b then a else b }

  datatype WriteResult = Wrote(n: nat) | Full | Again | Dead

  /** What one write call of so many bytes comes back with. */
  predicate Answers(a: Acceptance, offered: nat, r: WriteResult) {
    match a
    case Takes(most) => r == Wrote(Min(most, offered))
    case Refuses => r.Full?
    case Signalled => r.Again?
    case Breaks => r.Dead?
  }

  datatype Flushed = Drained | More | Error

  class FrameWriter {
    var buf: seq<byte>
    var flushPos: nat
    /** Every frame ever enqueued, and every byte already handed to a sink. */
    ghost var queued: seq<Outgoing>
    ghost var sent: seq<byte>

    /** Bytes out plus bytes pending are the encodings of all frames, in order. */
    ghost predicate Valid()
      reads this
    {
      flushPos <= |buf| && sent + buf[flushPos..] == EncodeAll(queued)
    }

    constructor ()
      ensures Valid() && queued == [] && sent == [] && buf == [] && flushPos == 0
    {
      buf, flushPos := [], 0;
      queued, sent := [], [];
    }

    method Enqueue(f: Outgoing)
      requires Valid()
      modifies this`buf, this`queued
      ensures Valid() && queued == old(queued) + [f]
      ensures buf[flushPos..] == old(buf[flushPos..]) + Encode(f)
    {
      EncodeAllSnoc(queued, f);
      Assoc(sent, buf[flushPos..], Encode(f));
      ghost var pending := buf[flushPos..];
      buf := buf + Le4((2 + |f.payload|) % U32_MODULUS);
      buf := buf + Le2(f.service);
      buf := buf + f.payload;
      queued := queued + [f];
      assert buf[flushPos..] == pending + Encode(f);
    }

    predicate IsEmpty()
      reads this
    {
      flushPos >= |buf|
    }

    function PendingBytes(): nat
      reads this
      requires flushPos <= |buf|
    {
      |buf| - flushPos
    }

    /** One write call offering the pending bytes; a sink may take none of them without an error. */
    method WriteTo(sink: Sink) returns (r: WriteResult, ghost out: seq<byte>)
      requires Valid() && flushPos < |buf|
      modifies this`flushPos, this`sent, sink
      ensures Valid() && flushPos == old(flushPos) + |out| && (out != [] ==> r.Wrote?) && (r.Wrote? ==> r.n == |out|)
      ensures sent == old(sent) + out && sink.written == old(sink.written) + out
      ensures if old(sink.script) == [] then r.Full? && sink.script == [] else sink.script == old(sink.script)[1..]
      ensures old(sink.script) != [] ==> Answers(old(sink.script)[0], old(PendingBytes()), r)
    {
      out := [];
      if sink.script == [] {
        return Full, out;
      }
      var head := sink.script[0];
      sink.script := sink.script[1..];
      match head
      case Refuses => r := Full;
      case Signalled => r := Again;
      case Breaks => r := Dead;
      case Takes(most) =>
        var n := Min(most, |buf| - flushPos);
        out := buf[flushPos..flushPos + n];
        assert buf[flushPos..] == out + buf[flushPos + n..];
        Assoc(sent, out, buf[flushPos + n..]);
        sent := sent + out;
        sink.written := sink.written + out;
        flushPos := flushPos + n;
        r := Wrote(n);
    }

    /**
     Hand the sink as much as it takes, and say whether that was all, or else whether it failed. Nothing is lost,
     repeated or reordered, whatever it does.
     */
    method TryFlush(sink: Sink) returns (r: Flushed, ghost out: seq<byte>)
      requires Valid()
      modifies this`buf, this`flushPos, this`sent, sink
      ensures Valid()
      ensures sent == old(sent) + out && sink.written == old(sink.written) + out
      ensures PendingBytes() == old(PendingBytes()) - |out|
      ensures r.Drained? <==> PendingBytes() == 0
      ensures r.Drained? ==> buf == [] && sent == EncodeAll(queued)
      ensures |out| == Min(old(PendingBytes()), Room(old(sink.script)))
      ensures r.Error? <==> Room(old(sink.script)) < old(PendingBytes()) && Fails(old(sink.script))
    {
      out := [];
      while flushPos < |buf|
        invariant Valid() && buf == old(buf) && flushPos == old(flushPos) + |out|
        invariant sent == old(sent) + out && sink.written == old(sink.written) + out
        invariant flushPos < |buf| ==> Room(old(sink.script)) == |out| + Room(sink.script)
                                       && Fails(old(sink.script)) == Fails(sink.script)
        invariant flushPos == |buf| ==> |out| <= Room(old(sink.script))
        decreases |sink.script|
      {
        var w;
        ghost var more;
        w, more := WriteTo(sink);
        Assoc(old(sent), out, more);
        Assoc(old(sink.written), out, more);
        out := out + more;
        match w
        case Wrote(n) =>
          if n == 0 {
            return Error, out;
          }
        case Full => return More, out;
        case Again =>
        case Dead => return Error, out;
      }
      buf, flushPos := [], 0;
      return Drained, out;
    }

    /** A peer that takes the services and has the room reads back the frames in order, all of them once drained. */
    lemma ReadsBack(cfg: Config)
      requires Valid() && cfg.max < U32_MODULUS
      requires forall f :: f in queued ==> cfg.Takes(f.service) && Fits(cfg, f)
      ensures DecodeAll(cfg, sent).frames <= AsFrames(queued) && DecodeAll(cfg, sent).error == Transport
      ensures PendingBytes() == 0 ==> DecodeAll(cfg, sent).frames == AsFrames(queued)
    {
      assert PendingBytes() == 0 ==> sent + buf[flushPos..] == sent;
      DecodePrefix(cfg, queued, sent);
    }
  }
}
