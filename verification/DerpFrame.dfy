/**
The DERP frame codec and the resumable frame reader.

`ReadFrame` says what reading one frame off the front of a whole stream gives;
`Frames` and `Verdict` repeat it to the end. `FrameReader` has to find the same
frames when the bytes arrive in arbitrary pieces with timeouts in between.
*/
module DerpFrame {
  import opened Common
  import opened ByteStream

  const FRAME_HEADER_LEN := 5
  const MAX_PAYLOAD := 64 * 1024
  const READ_CHUNK := 8192

  datatype FrameType =
    | ServerKey | ClientInfo | ServerInfo | SendPacket | RecvPacket | KeepAlive | NotePreferred | PeerGone
    | PeerPresent | ForwardPacket | WatchConns | ClosePeer | Ping | Pong | Health | Restarting

  function ToByte(ty: FrameType): byte {
    match ty
    case ServerKey => 0x01
    case ClientInfo => 0x02
    case ServerInfo => 0x03
    case SendPacket => 0x04
    case RecvPacket => 0x05
    case KeepAlive => 0x06
    case NotePreferred => 0x07
    case PeerGone => 0x08
    case PeerPresent => 0x09
    case ForwardPacket => 0x0a
    case WatchConns => 0x10
    case ClosePeer => 0x11
    case Ping => 0x12
    case Pong => 0x13
    case Health => 0x14
    case Restarting => 0x15
  }

  /** The type a byte stands for: the inverse of `ToByte`, undefined on every other byte. */
  function FromByte(b: byte): (r: Option<FrameType>)
    ensures r.Some? ==> ToByte(r.value) == b
    ensures r.None? ==> forall ty :: ToByte(ty) != b
  {
    match b
    case 0x01 => Some(ServerKey)
    case 0x02 => Some(ClientInfo)
    case 0x03 => Some(ServerInfo)
    case 0x04 => Some(SendPacket)
    case 0x05 => Some(RecvPacket)
    case 0x06 => Some(KeepAlive)
    case 0x07 => Some(NotePreferred)
    case 0x08 => Some(PeerGone)
    case 0x09 => Some(PeerPresent)
    case 0x0a => Some(ForwardPacket)
    case 0x10 => Some(WatchConns)
    case 0x11 => Some(ClosePeer)
    case 0x12 => Some(Ping)
    case 0x13 => Some(Pong)
    case 0x14 => Some(Health)
    case 0x15 => Some(Restarting)
    case _ => None
  }

  /** The codes of the frames a client gets and sends. */
  lemma TypeCodes()
    ensures FromByte(0x04) == Some(SendPacket) && FromByte(0x05) == Some(RecvPacket)
    ensures FromByte(0x06) == Some(KeepAlive) && FromByte(0x07) == Some(NotePreferred)
    ensures FromByte(0x12) == Some(Ping) && FromByte(0x13) == Some(Pong) && FromByte(0x15) == Some(Restarting)
    ensures forall b: byte :: FromByte(b).Some? <==> 0x01 <= b <= 0x0a || 0x10 <= b <= 0x15
  {
  }

  datatype Frame = Frame(ty: FrameType, payload: seq<byte>)

  datatype Parsed =
    | Full(frame: Frame, rest: seq<byte>)
    | BadFrameType(b: byte)
    | FrameTooLarge(len: nat)
    | Incomplete

  /** One frame off the front of a stream. */
  function ReadFrame(s: seq<byte>): (r: Parsed)
    ensures r.Full? ==> |r.rest| < |s|
  {
    if |s| < FRAME_HEADER_LEN then Incomplete
    else
      match FromByte(s[0])
      case None => BadFrameType(s[0])
      case Some(ty) =>
        var len := U32(s[1], s[2], s[3], s[4]);
        if len > MAX_PAYLOAD then FrameTooLarge(len)
        else if |s| < FRAME_HEADER_LEN + len then Incomplete
        else Full(Frame(ty, s[FRAME_HEADER_LEN..FRAME_HEADER_LEN + len]), s[FRAME_HEADER_LEN + len..])
  }

  /** The wire form of a frame; nothing when its payload is over the limit. */
  function WriteFrame(f: Frame): Option<seq<byte>> {
    if |f.payload| > MAX_PAYLOAD then None
    else Some([ToByte(f.ty)] + Be32(|f.payload|) + f.payload)
  }

  lemma SmallFrame(f: Frame)
    requires |f.payload| < 256
    ensures WriteFrame(f) == Some([ToByte(f.ty)] + [0, 0, 0, |f.payload|] + f.payload)
  {
    SmallLength(|f.payload|);
  }

  /** Both sides draw the line at sixty-four kilobytes of payload. */
  lemma PayloadLimit(f: Frame, s: seq<byte>)
    ensures WriteFrame(f).None? <==> |f.payload| > 65536
    ensures |s| >= 5 && FromByte(s[0]).Some? ==>
              (ReadFrame(s).FrameTooLarge? <==> U32(s[1], s[2], s[3], s[4]) > 65536)
    ensures |s| >= 5 ==> (ReadFrame(s).BadFrameType? <==> FromByte(s[0]).None?)
  {
  }

  /** All frames of a stream, up to the point where reading cannot go on. */
  function Frames(s: seq<byte>): seq<Frame>
    decreases |s|
  {
    var p := ReadFrame(s);
    if p.Full? then [p.frame] + Frames(p.rest) else []
  }

  /** Why reading a stream ends: a protocol error, or bytes missing. */
  function Verdict(s: seq<byte>): (p: Parsed)
    ensures !p.Full?
    decreases |s|
  {
    var p := ReadFrame(s);
    if p.Full? then Verdict(p.rest) else p
  }

  // ---------- the codec ----------

  /** What was written is read back, whatever follows it. */
  lemma WriteThenRead(f: Frame, rest: seq<byte>)
    ensures WriteFrame(f).Some? <==> |f.payload| <= MAX_PAYLOAD
    ensures WriteFrame(f).Some? ==> ReadFrame(WriteFrame(f).value + rest) == Full(f, rest)
  {
    if WriteFrame(f).Some? {
      var s := WriteFrame(f).value + rest;
      var len := Be32(|f.payload|);
      assert s[0] == ToByte(f.ty);
      assert s[1] == len[0] && s[2] == len[1] && s[3] == len[2] && s[4] == len[3];
      assert FromByte(s[0]) == Some(f.ty) by {
        TypesDiffer(f.ty, FromByte(s[0]));
      }
      assert s[5..5 + |f.payload|] == f.payload;
      assert s[5 + |f.payload|..] == rest;
    }
  }

  lemma TypesDiffer(a: FrameType, b: Option<FrameType>)
    requires b == FromByte(ToByte(a))
    ensures b == Some(a)
  {
    assert b.Some? ==> ToByte(b.value) == ToByte(a);
    match a
    case ServerKey => case ClientInfo => case ServerInfo => case SendPacket => case RecvPacket =>
    case KeepAlive => case NotePreferred => case PeerGone => case PeerPresent => case ForwardPacket =>
    case WatchConns => case ClosePeer => case Ping => case Pong => case Health => case Restarting =>
  }

  /** A complete frame is the wire form of what is read from it. */
  lemma ReadThenWrite(s: seq<byte>)
    requires ReadFrame(s).Full?
    ensures var p := ReadFrame(s); WriteFrame(p.frame).Some? && s == WriteFrame(p.frame).value + p.rest
  {
    var p := ReadFrame(s);
    Be32OfU32(s[1], s[2], s[3], s[4]);
    CutHeader(s, |p.frame.payload|);
  }

  lemma CutHeader(s: seq<byte>, len: nat)
    requires |s| >= 5 + len
    ensures s == [s[0]] + [s[1], s[2], s[3], s[4]] + s[5..5 + len] + s[5 + len..]
  {
    assert s[..5] == [s[0]] + [s[1], s[2], s[3], s[4]];
    assert s == s[..5] + s[5..5 + len] + s[5 + len..];
  }

  /** Once a prefix settles the outcome, more bytes do not change it. */
  lemma SettledByPrefix(s: seq<byte>, more: seq<byte>)
    requires !ReadFrame(s).Incomplete?
    ensures ReadFrame(s + more) == match ReadFrame(s)
                                   case Full(f, rest) => Full(f, rest + more)
                                   case other => other
  {
    var t := s + more;
    assert t[0] == s[0] && t[1] == s[1] && t[2] == s[2] && t[3] == s[3] && t[4] == s[4];
    if ReadFrame(s).Full? {
      SliceOfAppend(s, more, 5, 5 + U32(s[1], s[2], s[3], s[4]));
    }
  }

  /** The bytes a frame puts on the wire. */
  function Encoded(f: Frame): seq<byte> {
    if WriteFrame(f).Some? then WriteFrame(f).value else []
  }

  function Wire(fs: seq<Frame>): seq<byte> {
    Collect(Encoded, fs)
  }

  lemma OneMoreFrame(s: seq<byte>, f: Frame, rest: seq<byte>)
    requires ReadFrame(s) == Full(f, rest)
    ensures Frames(s) == [f] + Frames(rest) && Verdict(s) == Verdict(rest)
  {
  }

  /** A stream of written frames is read back frame by frame, and then whatever follows them. */
  lemma {:induction false} WireThenRead(fs: seq<Frame>, tail: seq<byte>)
    requires forall i | 0 <= i < |fs| :: WriteFrame(fs[i]).Some?
    ensures Frames(Wire(fs) + tail) == fs + Frames(tail) && Verdict(Wire(fs) + tail) == Verdict(tail)
  {
    if fs == [] {
      Empty(tail);
      Empty(Frames(tail));
    } else {
      var f, rest := fs[0], fs[1..];
      assert fs == [f] + rest;
      assert Wire(fs) == Encoded(f) + Wire(rest) by {
        CollectConcat(Encoded, [f], rest);
        CollectOne(Encoded, f);
      }
      Assoc(Encoded(f), Wire(rest), tail);
      Assoc([f], rest, Frames(tail));
      WriteThenRead(f, Wire(rest) + tail);
      WireThenRead(rest, tail);
      OneMoreFrame(Wire(fs) + tail, f, Wire(rest) + tail);
    }
  }

  /** A frame cut short is no frame and no error. */
  lemma CutFrame(f: Frame, cut: seq<byte>)
    requires WriteFrame(f).Some? && cut < WriteFrame(f).value
    ensures ReadFrame(cut).Incomplete? && Frames(cut) == []
  {
    var whole := WriteFrame(f).value;
    var more := whole[|cut|..];
    Rejoin(whole, |cut|);
    Empty(whole);
    WriteThenRead(f, []);
    if !ReadFrame(cut).Incomplete? {
      SettledByPrefix(cut, more);
    }
  }

  // ---------- the resumable reader ----------

  datatype Poll =
    | Got(frame: Frame)
    | NeedMore
    | Protocol(error: Parsed)
    | Ended
    | Broken

  class FrameReader {
    var buf: seq<byte>

    constructor ()
      ensures buf == []
    {
      buf := [];
    }

    method TryExtract() returns (r: Poll)
      modifies this
      ensures match ReadFrame(old(buf))
              case Full(f, rest) => r == Got(f) && buf == rest
              case Incomplete => r == NeedMore && buf == old(buf)
              case error => r == Protocol(error) && buf == old(buf)
    {
      if |buf| < FRAME_HEADER_LEN {
        return NeedMore;
      }
      var ty := FromByte(buf[0]);
      if ty.None? {
        return Protocol(BadFrameType(buf[0]));
      }
      var len := U32(buf[1], buf[2], buf[3], buf[4]);
      if len > MAX_PAYLOAD {
        return Protocol(FrameTooLarge(len));
      }
      var total := FRAME_HEADER_LEN + len;
      if |buf| < total {
        return NeedMore;
      }
      var payload := buf[FRAME_HEADER_LEN..total];
      buf := buf[total..];
      return Got(Frame(ty.value, payload));
    }

    /**
    Read at most one chunk and return the next complete frame, if there is one.
    The bytes held plus the bytes on their way are the stream still to be read:
    a frame is taken off its front, a timeout leaves it alone, an error is the
    error that stream begins with, and the end is reported only when no complete
    frame is left.
    */
    method PollFrame(r: Stream) returns (p: Poll)
      modifies this, r
      ensures p.Got? ==> ReadFrame(old(buf + r.incoming)) == Full(p.frame, buf + r.incoming)
      ensures !p.Got? ==> buf + r.incoming == old(buf + r.incoming)
      ensures p.Protocol? ==> p.error == ReadFrame(old(buf + r.incoming)) && !p.error.Full? && !p.error.Incomplete?
      ensures p.Ended? ==> r.incoming == [] && ReadFrame(buf).Incomplete?
      ensures p.NeedMore? ==> ReadFrame(buf).Incomplete?
      ensures p.Broken? ==> old(r.script) != [] && old(r.script)[0].Break?
      ensures p.Ended? ==> old(r.script) != [] && old(r.script)[0].Close?
      ensures old(r.script) != [] && old(r.script)[0].Break? && r.script != old(r.script) ==> p.Broken?
      // A poll that brings no frame uses up one answer of the stream.
      ensures r.script == old(r.script) || (old(r.script) != [] && r.script == old(r.script)[1..])
      ensures !p.Got? && !p.Protocol? ==> r.script == [] || |r.script| < |old(r.script)|
      ensures old(r.script) == [] && ReadFrame(old(buf)).Incomplete? ==> p.NeedMore?
      ensures Delivered(old(r.incoming), old(r.script), r.incoming, r.script)
      ensures old(Enough(r.incoming, r.script)) ==> Enough(r.incoming, r.script)
      ensures |old(buf)| < FRAME_HEADER_LEN + MAX_PAYLOAD + READ_CHUNK ==>
                |buf| < FRAME_HEADER_LEN + MAX_PAYLOAD + READ_CHUNK
    {
      p := TryExtract();
      if !p.NeedMore? {
        SettledByPrefix(old(buf), r.incoming);
        return;
      }
      var got := r.Read(READ_CHUNK);
      match got {
        case Eof => return Ended;
        case IoError => return Broken;
        case WouldBlock => return NeedMore;
        case Data(bytes) =>
          var grown := buf + bytes;
          assert grown + r.incoming == old(buf + r.incoming);
          buf := grown;
          p := TryExtract();
          if !p.NeedMore? {
            SettledByPrefix(grown, r.incoming);
          }
      }
    }
  }

  /** The frames delivered so far and the stream still to be read make up the whole stream. */
  ghost predicate Accounts(stream: seq<byte>, frames: seq<Frame>, left: seq<byte>) {
    Frames(stream) == frames + Frames(left) && Verdict(stream) == Verdict(left)
  }

  lemma AccountsForFrame(stream: seq<byte>, frames: seq<Frame>, left: seq<byte>, f: Frame, rest: seq<byte>)
    requires Accounts(stream, frames, left) && ReadFrame(left) == Full(f, rest)
    ensures Accounts(stream, frames + [f], rest)
  {
    OneMoreFrame(left, f, rest);
    Assoc(frames, [f], Frames(rest));
  }

  lemma AccountsForEnd(stream: seq<byte>, frames: seq<Frame>, left: seq<byte>)
    requires Accounts(stream, frames, left) && !ReadFrame(left).Full?
    ensures frames == Frames(stream) && Verdict(stream) == ReadFrame(left)
  {
  }

  /** What a driver of the reader has to show for its polls: what it delivered, holds and has not yet met. */
  datatype Received = Received(frames: seq<Frame>, last: Poll, held: seq<byte>, coming: seq<byte>, left: seq<Choice>)

  /**
  Poll any number of times over any stream, chunked and delayed in any way. The
  frames come out exactly as reading the whole stream gives them, in order, with
  none lost; an error is the one the whole stream ends with; whenever the reader
  asks for more with nothing on its way, and at the end of the stream, every
  complete frame has been delivered. Nothing waits for ever: if the stream hands
  over all its bytes and is polled often enough, all frames come out.
  */
  method Drive(stream: seq<byte>, script: seq<Choice>, polls: nat) returns (got: Received)
    ensures Accounts(stream, got.frames, got.held + got.coming)
    ensures |got.held| < FRAME_HEADER_LEN + MAX_PAYLOAD + READ_CHUNK
    ensures got.last.Protocol? ==> got.frames == Frames(stream) && got.last.error == Verdict(stream)
    ensures got.last.Ended? ==> got.coming == [] && Verdict(stream) == Incomplete
    ensures got.last.Ended? || (got.last.NeedMore? && polls > 0 && got.coming == []) ==> got.frames == Frames(stream)
    ensures got.last.Broken? ==> Break in script
    // Each poll brings a frame or uses up an answer, and each delivery a byte.
    ensures Later(script, got.left) && Delivered(stream, script, got.coming, got.left)
    ensures got.last.NeedMore? || got.last.Got? ==> got.left == [] || polls <= |got.frames| + |script| - |got.left|
    ensures |stream| <= Deliveries(script) && Break !in script && polls > |Frames(stream)| + |script| ==>
              got.frames == Frames(stream)
  {
    var io := new Stream(stream, script);
    var reader := new FrameReader();
    var frames: seq<Frame> := [];
    Empty(stream);
    Empty(Frames(stream));
    var p := NeedMore;
    var i := 0;
    while i < polls && (p.NeedMore? || p.Got?)
      invariant 0 <= i <= polls
      invariant Accounts(stream, frames, reader.buf + io.incoming)
      invariant |reader.buf| < FRAME_HEADER_LEN + MAX_PAYLOAD + READ_CHUNK
      invariant p.Protocol? ==> p.error == ReadFrame(reader.buf + io.incoming) && !p.error.Full?
      invariant p.Ended? ==> io.incoming == []
      invariant p.Ended? || (p.NeedMore? && i > 0) ==> ReadFrame(reader.buf).Incomplete?
      invariant p.Broken? ==> Break in script
      invariant Later(script, io.script) && Delivered(stream, script, io.incoming, io.script)
      invariant p.NeedMore? || p.Got? ==> i <= |frames| + |script| - |io.script| || (io.script == [] && p.NeedMore?)
    {
      ghost var before := reader.buf + io.incoming;
      p := reader.PollFrame(io);
      if p.Got? {
        AccountsForFrame(stream, frames, before, p.frame, reader.buf + io.incoming);
        frames := frames + [p.frame];
      }
      i := i + 1;
    }
    got := Received(frames, p, reader.buf, io.incoming, io.script);
    Empty(got.held);
    if p.Protocol? || p.Ended? || (p.NeedMore? && i > 0 && got.coming == []) {
      AccountsForEnd(stream, frames, got.held + got.coming);
    }
  }
}
