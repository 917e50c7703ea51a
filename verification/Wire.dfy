/**
 The wire format, as functions on byte sequences:
 a 4-byte little-endian length, which counts a 2-byte little-endian service and the payload.
 */
module Wire {
  import opened Sequences

  type byte = b: int | 0 <= b < 256

  const U32_MODULUS: int := 0x1_0000_0000
  const ABORT: nat := 0xFFFF

  // ---- little-endian integers ----

  function Le2(n: nat): (s: seq<byte>)
    requires n < 0x1_0000
    ensures |s| == 2
  {
    [n % 256, n / 256]
  }

  function Le4(n: nat): (s: seq<byte>)
    requires n < U32_MODULUS
    ensures |s| == 4
  {
    [n % 256, n / 256 % 256, n / 65536 % 256, n / 16777216]
  }

  function FromLe2(s: seq<byte>): (n: nat)
    requires |s| == 2
    ensures n < 0x1_0000
  {
    s[0] as int + 256 * (s[1] as int)
  }

  function FromLe4(s: seq<byte>): (n: nat)
    requires |s| == 4
    ensures n < U32_MODULUS
  {
    s[0] as int + 256 * (s[1] as int) + 65536 * (s[2] as int) + 16777216 * (s[3] as int)
  }

  lemma {:induction false} Le2Inverse(n: nat, s: seq<byte>)
    requires n < 0x1_0000 && |s| == 2
    ensures FromLe2(Le2(n)) == n && Le2(FromLe2(s)) == s
  {
    var m := FromLe2(s);
    assert m % 256 == s[0] && m / 256 == s[1];
  }

  lemma {:induction false} Le4Inverse(n: nat, s: seq<byte>)
    requires n < U32_MODULUS && |s| == 4
    ensures FromLe4(Le4(n)) == n && Le4(FromLe4(s)) == s
  {
    var m := FromLe4(s);
    var a: int, b: int, c: int, d: int := s[0], s[1], s[2], s[3];
    assert m / 256 == b + 256 * c + 65536 * d;
    assert m / 65536 == c + 256 * d;
    assert m / 16777216 == s[3];
    assert n / 65536 == n / 256 / 256 && n / 16777216 == n / 65536 / 256;
  }

  /** The number whose digits to the base 256 are the bytes, the least significant first. */
  function Value(s: seq<byte>): nat {
    if s == [] then 0 else s[0] as int + 256 * Value(s[1..])
  }

  /** Both widths are little-endian, in both directions. */
  lemma {:induction false} LittleEndian(m: nat, s: seq<byte>, n: nat, t: seq<byte>)
    requires m < 0x1_0000 && |s| == 2 && n < U32_MODULUS && |t| == 4
    ensures Value(Le2(m)) == m && FromLe2(s) == Value(s)
    ensures Value(Le4(n)) == n && FromLe4(t) == Value(t)
  {
    TwoDigits(s);
    TwoDigits(Le2(m));
    Le2Inverse(m, s);
    FourDigits(t);
    FourDigits(Le4(n));
    Le4Inverse(n, t);
  }

  lemma {:induction false} TwoDigits(s: seq<byte>)
    requires |s| == 2
    ensures Value(s) == FromLe2(s)
  {
    assert s[1..][1..] == [] && Value(s[1..][1..]) == 0;
    assert Value(s[1..]) == s[1] as int;
  }

  lemma {:induction false} FourDigits(t: seq<byte>)
    requires |t| == 4
    ensures Value(t) == FromLe4(t)
  {
    TwoDigits(t[2..]);
    assert t[1..][1..] == t[2..];
    assert Value(t) == t[0] as int + 256 * (t[1] as int + 256 * Value(t[2..]));
  }

  // ---- decoding ----

  datatype Frame = Message(service: nat, payload: seq<byte>) | Abort

  datatype Error =
    | Oversized(declared: nat, limit: nat)
    | UnknownService(service: nat)
    | Transport
    | TooShort(declared: nat)
    | Poisoned

  /** The negotiated limit, and which services are taken: all of them, or the registered ones. */
  datatype Config = Config(max: nat, permissive: bool, known: set<nat>) {
    predicate Takes(service: nat) { permissive || service in known }
  }

  datatype Parsed = NeedMore | Got(frame: Frame, length: nat) | Bad(error: Error)

  function ParseBody(cfg: Config, body: seq<byte>): Parsed
    requires |body| >= 2
  {
    var service := FromLe2(body[..2]);
    if service == ABORT then Got(Abort, 4 + |body|)
    else if !cfg.Takes(service) then Bad(UnknownService(service))
    else Got(Message(service, body[2..]), 4 + |body|)
  }

  /** What the bytes at the head of a stream amount to. */
  function Parse(cfg: Config, s: seq<byte>): (p: Parsed)
    ensures p.Got? ==> 6 <= p.length <= |s|
  {
    if |s| < 4 then NeedMore
    else
      var length := FromLe4(s[..4]);
      if length < 2 then Bad(TooShort(length))
      else if length > cfg.max then Bad(Oversized(length, cfg.max))
      else if |s| < 4 + length then NeedMore
      else ParseBody(cfg, s[4..4 + length])
  }

  /** Once the head is decided, bytes that follow do not change the verdict. */
  lemma {:induction false} ParseStable(cfg: Config, s: seq<byte>, t: seq<byte>)
    requires !Parse(cfg, s).NeedMore?
    ensures Parse(cfg, s + t) == Parse(cfg, s)
  {
    assert (s + t)[..4] == s[..4];
    var length := FromLe4(s[..4]);
    if 2 <= length <= cfg.max {
      assert (s + t)[4..4 + length] == s[4..4 + length];
    }
  }

  datatype Decoded = Decoded(frames: seq<Frame>, error: Error)

  /** The reference: everything a stream holds, up to the error that ends it. Running out of bytes is one. */
  function DecodeAll(cfg: Config, s: seq<byte>): Decoded
    decreases |s|
  {
    match Parse(cfg, s)
    case NeedMore => Decoded([], Transport)
    case Bad(e) => Decoded([], e)
    case Got(f, n) =>
      var rest := DecodeAll(cfg, s[n..]);
      Decoded([f] + rest.frames, rest.error)
  }

  // ---- when two configurations read alike ----

  ghost predicate SameDecoding(a: Config, b: Config) {
    forall s: seq<byte> :: DecodeAll(a, s) == DecodeAll(b, s)
  }

  ghost predicate SameServices(a: Config, b: Config) {
    forall service: nat :: service < ABORT ==> a.Takes(service) == b.Takes(service)
  }

  lemma {:induction false} ParseAlike(a: Config, b: Config, s: seq<byte>)
    requires a.max == b.max && (a.max < 2 || SameServices(a, b))
    ensures Parse(a, s) == Parse(b, s)
  {
  }

  lemma {:induction false} DecodeAlike(a: Config, b: Config, s: seq<byte>)
    requires a.max == b.max && (a.max < 2 || SameServices(a, b))
    ensures DecodeAll(a, s) == DecodeAll(b, s)
    decreases |s|
  {
    ParseAlike(a, b, s);
    if Parse(a, s).Got? {
      DecodeAlike(a, b, s[Parse(a, s).length..]);
    }
  }

  /** An empty message of a service: taken or rejected by the service alone. */
  lemma {:induction false} ProbeService(cfg: Config, service: nat)
    requires 2 <= cfg.max && service < ABORT
    ensures var d := DecodeAll(cfg, Le4(2) + Le2(service));
            if cfg.Takes(service) then d.frames == [Message(service, [])] else d == Decoded([], UnknownService(service))
  {
    var s := Le4(2) + Le2(service);
    Le4Inverse(2, Le4(2));
    Le2Inverse(service, Le2(service));
    assert s[..4] == Le4(2) && s[4..6] == Le2(service);
    assert s[4..6][..2] == s[4..6] && s[4..6][2..] == [];
    assert s[6..] == [];
  }

  /** The largest length field: the error, or its absence, gives the limit away. */
  lemma {:induction false} ProbeLimit(cfg: Config)
    requires cfg.max < U32_MODULUS
    ensures DecodeAll(cfg, Le4(U32_MODULUS - 1)).error
         == if cfg.max == U32_MODULUS - 1 then Transport else Oversized(U32_MODULUS - 1, cfg.max)
  {
    var s := Le4(U32_MODULUS - 1);
    Le4Inverse(U32_MODULUS - 1, s);
    assert s[..4] == s;
  }

  /**
   Two readers decode every stream alike exactly when they have the same limit and, if any message can fit it, take
   the same services.
   */
  lemma {:induction false} DecodeAlikeExactly(a: Config, b: Config)
    requires a.max < U32_MODULUS && b.max < U32_MODULUS
    ensures SameDecoding(a, b) <==> a.max == b.max && (a.max < 2 || SameServices(a, b))
  {
    if a.max == b.max && (a.max < 2 || SameServices(a, b)) {
      forall s: seq<byte> ensures DecodeAll(a, s) == DecodeAll(b, s) {
        DecodeAlike(a, b, s);
      }
    }
    if SameDecoding(a, b) {
      ProbeLimit(a);
      ProbeLimit(b);
      assert DecodeAll(a, Le4(U32_MODULUS - 1)) == DecodeAll(b, Le4(U32_MODULUS - 1));
      if a.max >= 2 {
        forall service: nat | service < ABORT ensures a.Takes(service) == b.Takes(service) {
          ProbeService(a, service);
          ProbeService(b, service);
          assert DecodeAll(a, Le4(2) + Le2(service)) == DecodeAll(b, Le4(2) + Le2(service));
        }
      }
    }
  }

  /**
   The difference is real: a strict codec with a registered service takes what a strict incremental reader rejects.
   */
  lemma {:induction false} RegisteredServiceDiffers(max: nat)
    requires 2 <= max
    ensures var s := Le4(2) + Le2(5);
            DecodeAll(Config(max, false, {0, 5}), s).frames == [Message(5, [])]
            && DecodeAll(Config(max, false, {0}), s) == Decoded([], UnknownService(5))
  {
    ProbeService(Config(max, false, {0, 5}), 5);
    ProbeService(Config(max, false, {0}), 5);
  }

  // ---- resuming ----

  /** After some frames of a stream have been delivered, the rest of it decodes to the rest of the result. */
  predicate Resumes(cfg: Config, all: seq<byte>, frames: seq<Frame>, rest: seq<byte>) {
    DecodeAll(cfg, all) == Decoded(frames + DecodeAll(cfg, rest).frames, DecodeAll(cfg, rest).error)
  }

  lemma {:induction false} ResumesAtStart(cfg: Config, all: seq<byte>)
    ensures Resumes(cfg, all, [], all)
  {
    assert [] + DecodeAll(cfg, all).frames == DecodeAll(cfg, all).frames;
  }

  lemma {:induction false} ResumesGot(
    cfg: Config, all: seq<byte>, frames: seq<Frame>, rest: seq<byte>, f: Frame, n: nat)
    requires Resumes(cfg, all, frames, rest) && Parse(cfg, rest) == Got(f, n)
    ensures n <= |rest| && Resumes(cfg, all, frames + [f], rest[n..])
  {
    var d := DecodeAll(cfg, rest[n..]);
    assert frames + ([f] + d.frames) == frames + [f] + d.frames;
  }

  /** A frame complete at the end of what has been read is the first frame of the whole remainder. */
  lemma {:induction false} ResumesAfter(
    cfg: Config, all: seq<byte>, frames: seq<Frame>, head: seq<byte>, f: Frame, tail: seq<byte>)
    requires Resumes(cfg, all, frames, head + tail) && Parse(cfg, head) == Got(f, |head|)
    ensures Resumes(cfg, all, frames + [f], tail)
  {
    ParseStable(cfg, head, tail);
    ResumesGot(cfg, all, frames, head + tail, f, |head|);
    assert (head + tail)[|head|..] == tail;
  }

  lemma {:induction false} ResumesBad(cfg: Config, all: seq<byte>, frames: seq<Frame>, head: seq<byte>, tail: seq<byte>)
    requires Resumes(cfg, all, frames, head + tail) && Parse(cfg, head).Bad?
    ensures DecodeAll(cfg, all) == Decoded(frames, Parse(cfg, head).error)
  {
    ParseStable(cfg, head, tail);
    assert frames + [] == frames;
  }

  lemma {:induction false} ResumesEnd(cfg: Config, all: seq<byte>, frames: seq<Frame>, rest: seq<byte>)
    requires Resumes(cfg, all, frames, rest) && Parse(cfg, rest).NeedMore?
    ensures DecodeAll(cfg, all) == Decoded(frames, Transport)
  {
    assert frames + [] == frames;
  }

  // ---- encoding ----

  datatype OutFrame = OutFrame(service: nat, payload: seq<byte>)

  /** The abort discriminant cannot be sent as a message. */
  type Outgoing = f: OutFrame | f.service < ABORT witness OutFrame(0, [])

  /** The length field is the low 32 bits, as the cast in the encoder leaves it. */
  function Encode(f: Outgoing): (s: seq<byte>)
    ensures |s| == 6 + |f.payload|
  {
    Le4((2 + |f.payload|) % U32_MODULUS) + Le2(f.service) + f.payload
  }

  function EncodeAll(fs: seq<Outgoing>): seq<byte> {
    if fs == [] then [] else EncodeAll(fs[..|fs|-1]) + Encode(fs[|fs|-1])
  }

  function AsFrame(f: Outgoing): Frame { Message(f.service, f.payload) }

  function AsFrames(fs: seq<Outgoing>): (r: seq<Frame>)
    ensures |r| == |fs|
  {
    if fs == [] then [] else [AsFrame(fs[0])] + AsFrames(fs[1..])
  }

  predicate Fits(cfg: Config, f: Outgoing) { 2 + |f.payload| <= cfg.max }

  /** A frame on the wire: the low 32 bits of its length, then the service, both little-endian, then the payload. */
  lemma {:induction false} Layout(f: Outgoing)
    ensures var s := Encode(f);
            && Value(s[..4]) == (2 + |f.payload|) % U32_MODULUS
            && Value(s[4..6]) == f.service
            && s[6..] == f.payload
  {
    var s, n := Encode(f), (2 + |f.payload|) % U32_MODULUS;
    assert s[..4] == Le4(n) && s[4..6] == Le2(f.service);
    LittleEndian(f.service, s[4..6], n, s[..4]);
  }

  lemma {:induction false} EncodedHead(f: Outgoing, rest: seq<byte>)
    ensures var s := Encode(f) + rest;
            && |s| >= 6
            && FromLe4(s[..4]) == (2 + |f.payload|) % U32_MODULUS
            && FromLe2(s[4..6]) == f.service
  {
    var s := Encode(f) + rest;
    var head := Le4((2 + |f.payload|) % U32_MODULUS);
    assert s[..4] == head;
    assert s[4..6] == Le2(f.service);
    Le4Inverse((2 + |f.payload|) % U32_MODULUS, head);
    Le2Inverse(f.service, Le2(f.service));
  }

  lemma {:induction false} FittingBack(cfg: Config, f: Outgoing, rest: seq<byte>)
    requires cfg.Takes(f.service) && cfg.max < U32_MODULUS && Fits(cfg, f)
    ensures Parse(cfg, Encode(f) + rest) == Got(AsFrame(f), |Encode(f)|)
  {
    var s, n := Encode(f) + rest, 2 + |f.payload|;
    EncodedHead(f, rest);
    SmallLength(n);
    var body := s[4..4 + n];
    assert body[..2] == s[4..6] && body[2..] == f.payload;
  }

  /** A frame comes back from the wire exactly when it fits the reader's limit, whatever follows it. */
  lemma {:induction false} RoundTrip(cfg: Config, f: Outgoing, rest: seq<byte>)
    requires cfg.Takes(f.service) && cfg.max < U32_MODULUS
    ensures Parse(cfg, Encode(f) + rest) == Got(AsFrame(f), |Encode(f)|) <==> Fits(cfg, f)
  {
    if Fits(cfg, f) {
      FittingBack(cfg, f, rest);
    } else {
      var parsed := Parse(cfg, Encode(f) + rest);
      assert parsed.Got? ==> parsed.length <= 4 + cfg.max;
    }
  }

  lemma {:induction false} Pieces(s: seq<byte>, n: nat)
    requires 2 <= n && 4 + n <= |s|
    ensures s[..4 + n] == s[..4] + s[4..4 + n][..2] + s[4..4 + n][2..]
  {
  }

  lemma {:induction false} SmallLength(n: nat)
    requires n < U32_MODULUS
    ensures n % U32_MODULUS == n
  {
  }

  /** Header and payload, read and written back. */
  lemma {:induction false} Reencode(head: seq<byte>, tag: seq<byte>, payload: seq<byte>)
    requires |head| == 4 && |tag| == 2 && FromLe4(head) == 2 + |payload| && FromLe2(tag) < ABORT
    ensures Encode(OutFrame(FromLe2(tag), payload)) == head + tag + payload
  {
    assert Le4((2 + |payload|) % U32_MODULUS) == head by {
      Le4Inverse(0, head);
      SmallLength(2 + |payload|);
    }
    assert Le2(FromLe2(tag)) == tag by {
      Le2Inverse(0, tag);
    }
  }

  /** The format has one encoding per message: whatever parses as a message is that message's encoding. */
  lemma {:induction false} Canonical(cfg: Config, s: seq<byte>)
    requires Parse(cfg, s).Got? && Parse(cfg, s).frame.Message?
    ensures var Got(frame, n) := Parse(cfg, s);
            frame.service < ABORT && s[..n] == Encode(OutFrame(frame.service, frame.payload))
  {
    var n := FromLe4(s[..4]);
    var body := s[4..4 + n];
    Le2Inverse(0, body[..2]);
    Pieces(s, n);
    Reencode(s[..4], body[..2], body[2..]);
  }

  lemma {:induction false} EncodeAllSnoc(fs: seq<Outgoing>, f: Outgoing)
    ensures EncodeAll(fs + [f]) == EncodeAll(fs) + Encode(f)
  {
    assert (fs + [f])[..|fs|] == fs;
  }

  lemma {:induction false} EncodeAllConcat(a: seq<Outgoing>, b: seq<Outgoing>)
    ensures EncodeAll(a + b) == EncodeAll(a) + EncodeAll(b)
  {
    if b == [] {
      assert a + b == a;
    } else {
      var init, last := b[..|b|-1], b[|b|-1];
      EncodeAllConcat(a, init);
      assert b == init + [last];
      Assoc(a, init, [last]);
      EncodeAllSnoc(a + init, last);
      Assoc(EncodeAll(a), EncodeAll(init), Encode(last));
    }
  }

  lemma {:induction false} EncodeAllOne(f: Outgoing)
    ensures EncodeAll([f]) == Encode(f)
  {
    assert [f][..0] == [];
    assert EncodeAll([]) == [];
  }

  lemma {:induction false} EncodeAllFirst(fs: seq<Outgoing>)
    requires fs != []
    ensures EncodeAll(fs) == Encode(fs[0]) + EncodeAll(fs[1..])
  {
    assert fs == [fs[0]] + fs[1..];
    EncodeAllConcat([fs[0]], fs[1..]);
    EncodeAllOne(fs[0]);
  }

  lemma {:induction false} DecodeFirst(cfg: Config, f: Outgoing, more: seq<byte>)
    requires cfg.Takes(f.service) && Fits(cfg, f) && cfg.max < U32_MODULUS
    ensures var rest := DecodeAll(cfg, more);
            DecodeAll(cfg, Encode(f) + more) == Decoded([AsFrame(f)] + rest.frames, rest.error)
  {
    RoundTrip(cfg, f, more);
    assert (Encode(f) + more)[|Encode(f)|..] == more;
  }

  lemma {:induction false} Unfinished(cfg: Config, f: Outgoing, s: seq<byte>)
    requires cfg.Takes(f.service) && Fits(cfg, f) && cfg.max < U32_MODULUS
    requires s <= Encode(f) && |s| < |Encode(f)|
    ensures Parse(cfg, s).NeedMore?
  {
    EncodedHead(f, []);
    assert Encode(f) + [] == Encode(f);
    if |s| >= 4 { assert s[..4] == Encode(f)[..4]; }
  }

  /**
   Reading back any prefix of a written stream gives a prefix of the frames, and then only the end of the
   stream; reading back all of it gives all of them.
   */
  lemma {:induction false} DecodePrefix(cfg: Config, fs: seq<Outgoing>, s: seq<byte>)
    requires cfg.max < U32_MODULUS
    requires forall f :: f in fs ==> cfg.Takes(f.service) && Fits(cfg, f)
    requires s <= EncodeAll(fs)
    ensures var d := DecodeAll(cfg, s);
            && d.error == Transport
            && d.frames <= AsFrames(fs)
            && (s == EncodeAll(fs) ==> d.frames == AsFrames(fs))
    decreases |fs|
  {
    if fs == [] {
      assert s == [];
    } else {
      var f, tail := fs[0], fs[1..];
      EncodeAllFirst(fs);
      var n := |Encode(f)|;
      if |s| >= n {
        assert s == Encode(f) + s[n..];
        DecodeFirst(cfg, f, s[n..]);
        assert EncodeAll(fs)[n..] == EncodeAll(tail);
        DecodePrefix(cfg, tail, s[n..]);
      } else {
        Unfinished(cfg, f, s);
      }
    }
  }
}
