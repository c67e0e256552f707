/**
The I/O loop of one DERP connection.

Each turn drains the outbound queue into a batch with the pongs in front, writes
the batch, reads at most one frame and handles it; a ping puts its pong on the
connection's own queue. Callers enqueue messages at any time, writes may fail at
any byte, and the inbound bytes arrive in any pieces.
*/
module DerpConn {
  import opened Common
  import opened ByteStream
  import opened DerpFrame

  const KEY_LEN := 32
  const ECHO_LEN := 8

  /** A public key on the wire. */
  type Key = k: seq<byte> | |k| == KEY_LEN witness seq(KEY_LEN, _ => 0)

  datatype Tx =
    | Packet(dst: Key, wgBytes: seq<byte>)
    | Preferred(home: bool)
    | Echo(payload: seq<byte>)

  datatype Rx = Rx(src: Key, wgBytes: seq<byte>)

  function ToFrame(m: Tx): Frame {
    match m
    case Packet(dst, wg) => Frame(SendPacket, dst + wg)
    case Preferred(home) => Frame(NotePreferred, [if home then 1 else 0])
    case Echo(p) => Frame(Pong, p)
  }

  // ---------- projections ----------

  function EchoIn(m: Tx): seq<seq<byte>> { if m.Echo? then [m.payload] else [] }

  function OtherIn(m: Tx): seq<Tx> { if m.Echo? then [] else [m] }

  function PingIn(f: Frame): seq<seq<byte>> {
    if f.ty == Ping && |f.payload| >= ECHO_LEN then [f.payload[..ECHO_LEN]] else []
  }

  function PacketIn(f: Frame): seq<Rx> {
    if f.ty == RecvPacket && |f.payload| >= KEY_LEN then [Rx(f.payload[..KEY_LEN], f.payload[KEY_LEN..])] else []
  }

  function FrameIn(m: Tx): seq<Frame> { [ToFrame(m)] }

  /** The echo payloads among some messages, in order. */
  function Echoes(ms: seq<Tx>): seq<seq<byte>> { Collect(EchoIn, ms) }

  /** The messages that are not echoes, in order. */
  function Others(ms: seq<Tx>): seq<Tx> { Collect(OtherIn, ms) }

  /** The payloads the well-formed pings among some frames ask to have echoed. */
  function PingPayloads(fs: seq<Frame>): seq<seq<byte>> { Collect(PingIn, fs) }

  /** The packets the well-formed receive frames carry. */
  function Packets(fs: seq<Frame>): seq<Rx> { Collect(PacketIn, fs) }

  /** The frames that carry some messages. */
  function FramesOf(ms: seq<Tx>): seq<Frame> { Collect(FrameIn, ms) }

  /** A ping of at least eight octets asks for its first eight back, a shorter one for nothing. */
  lemma PingAsks(p: seq<byte>)
    ensures PingIn(Frame(Ping, p)) == if |p| >= 8 then [p[..8]] else []
  {
  }

  /** A received packet is thirty-two octets of source and the rest; a shorter one is no packet. */
  lemma PacketIs(p: seq<byte>)
    ensures |p| >= 32 ==> PacketIn(Frame(RecvPacket, p)) == [Rx(p[..32], p[32..])]
    ensures |p| < 32 ==> PacketIn(Frame(RecvPacket, p)) == []
  {
  }

  /** What the other end takes a frame for: a pong with its payload. */
  function PongIn(f: Frame): seq<seq<byte>> { if f.ty == Pong then [f.payload] else [] }

  /** Or one of the other messages: a destination and a packet, or a preference. */
  function MessageIn(f: Frame): seq<Tx> {
    if f.ty == SendPacket && |f.payload| >= KEY_LEN then [Packet(f.payload[..KEY_LEN], f.payload[KEY_LEN..])]
    else if f.ty == NotePreferred && f.payload == [1] then [Preferred(true)]
    else if f.ty == NotePreferred && f.payload == [0] then [Preferred(false)]
    else []
  }

  function Pongs(fs: seq<Frame>): seq<seq<byte>> { Collect(PongIn, fs) }

  function Messages(fs: seq<Frame>): seq<Tx> { Collect(MessageIn, fs) }

  /** Each message reaches the other end as itself. */
  lemma Understood(m: Tx)
    ensures PongIn(ToFrame(m)) == EchoIn(m) && MessageIn(ToFrame(m)) == OtherIn(m)
  {
    if m.Packet? {
      assert (m.dst + m.wgBytes)[..KEY_LEN] == m.dst && (m.dst + m.wgBytes)[KEY_LEN..] == m.wgBytes;
    }
  }

  /** Read as the other end reads them, the frames of some messages give the echoes and the other messages back. */
  lemma {:induction false} AllUnderstood(ms: seq<Tx>)
    ensures Pongs(FramesOf(ms)) == Echoes(ms) && Messages(FramesOf(ms)) == Others(ms)
  {
    if ms != [] {
      var pre, m := Init(ms), Last(ms);
      AllUnderstood(pre);
      Understood(m);
      CollectConcat(PongIn, FramesOf(pre), [ToFrame(m)]);
      CollectConcat(MessageIn, FramesOf(pre), [ToFrame(m)]);
      CollectOne(PongIn, ToFrame(m));
      CollectOne(MessageIn, ToFrame(m));
    }
  }

  /** The octets of a pong, a preference and a packet, as the other end expects them. */
  lemma PongOnWire(p: seq<byte>)
    requires |p| == 8
    ensures WriteFrame(ToFrame(Echo(p))) == Some([0x13] + [0, 0, 0, 8] + p)
  {
    SmallFrame(ToFrame(Echo(p)));
  }

  lemma PreferenceOnWire(home: bool)
    ensures ToFrame(Preferred(home)).payload == [if home then 1 else 0]
    ensures WriteFrame(ToFrame(Preferred(home))) == Some([0x07] + [0, 0, 0, 1] + ToFrame(Preferred(home)).payload)
  {
    OneOctet(ToFrame(Preferred(home)));
  }

  lemma OneOctet(f: Frame)
    requires f.ty == NotePreferred && |f.payload| == 1
    ensures WriteFrame(f) == Some([0x07] + [0, 0, 0, 1] + f.payload)
  {
    SmallFrame(f);
  }

  lemma PacketOnWire(dst: Key, wg: seq<byte>)
    requires 32 + |wg| <= 65536
    ensures |dst| == 32 && WriteFrame(ToFrame(Packet(dst, wg))) == Some([0x04] + Be32(32 + |wg|) + (dst + wg))
  {
  }

  predicate Fits(m: Tx) { |ToFrame(m).payload| <= MAX_PAYLOAD }

  lemma Split(a: seq<Tx>, b: seq<Tx>)
    ensures Echoes(a + b) == Echoes(a) + Echoes(b)
    ensures Others(a + b) == Others(a) + Others(b)
  {
    CollectConcat(EchoIn, a, b);
    CollectConcat(OtherIn, a, b);
  }

  lemma SplitFrames(a: seq<Frame>, b: seq<Frame>)
    ensures PingPayloads(a + b) == PingPayloads(a) + PingPayloads(b)
    ensures Packets(a + b) == Packets(a) + Packets(b)
  {
    CollectConcat(PingIn, a, b);
    CollectConcat(PacketIn, a, b);
  }

  ghost predicate NoEcho(ms: seq<Tx>) {
    forall i | 0 <= i < |ms| :: !ms[i].Echo?
  }

  predicate AllFit(ms: seq<Tx>) {
    forall i | 0 <= i < |ms| :: Fits(ms[i])
  }

  predicate DrawnFrom(a: seq<Tx>, b: seq<Tx>) {
    forall i | 0 <= i < |a| :: a[i] in b
  }

  lemma DrawnFit(a: seq<Tx>, b: seq<Tx>)
    requires DrawnFrom(a, b) && AllFit(b)
    ensures AllFit(a)
  {
  }

  lemma FitAppend(a: seq<Tx>, b: seq<Tx>)
    requires AllFit(a) && AllFit(b)
    ensures AllFit(a + b)
  {
  }

  ghost predicate OnlyEchoes(ms: seq<Tx>) {
    forall i | 0 <= i < |ms| :: ms[i].Echo?
  }

  // ---------- one batch ----------

  /** Echoes come before everything else. */
  ghost predicate EchoesFirst(batch: seq<Tx>) {
    forall i, j | 0 <= i < j < |batch| :: batch[j].Echo? ==> batch[i].Echo?
  }

  lemma PrefixEchoesFirst(batch: seq<Tx>, b: seq<Tx>)
    requires EchoesFirst(batch) && b <= batch
    ensures EchoesFirst(b)
  {
    assert forall i | 0 <= i < |b| :: b[i] == batch[i];
  }

  lemma PongsFirst(pongs: seq<Tx>, others: seq<Tx>)
    requires OnlyEchoes(pongs) && NoEcho(others)
    ensures var batch := pongs + others;
            EchoesFirst(batch) && Echoes(batch) == Echoes(pongs) && Others(batch) == Others(others)
  {
    Split(pongs, others);
    CollectNothing(OtherIn, pongs);
    CollectNothing(EchoIn, others);
    Empty(Echoes(pongs));
    Empty(Others(others));
  }

  /** Drain the queue into one batch: echoes first, both kinds in their own order, nothing lost. */
  method DrainQueue(queue: seq<Tx>) returns (batch: seq<Tx>)
    ensures Echoes(batch) == Echoes(queue) && Others(batch) == Others(queue)
    ensures EchoesFirst(batch)
    ensures DrawnFrom(batch, queue)
  {
    var pongs: seq<Tx>, others: seq<Tx> := [], [];
    for i := 0 to |queue|
      invariant OnlyEchoes(pongs) && NoEcho(others)
      invariant Echoes(pongs) == Echoes(queue[..i])
      invariant Others(others) == Others(queue[..i])
      invariant DrawnFrom(pongs, queue) && DrawnFrom(others, queue)
    {
      CutLast(queue, i);
      Split(queue[..i], [queue[i]]);
      CollectOne(EchoIn, queue[i]);
      CollectOne(OtherIn, queue[i]);
      if queue[i].Echo? {
        Split(pongs, [queue[i]]);
        pongs := pongs + [queue[i]];
      } else {
        Split(others, [queue[i]]);
        others := others + [queue[i]];
      }
    }
    TakeAll(queue);
    PongsFirst(pongs, others);
    batch := pongs + others;
  }

  /** Bytes too few to make a frame or an error. */
  predicate CutOff(cut: seq<byte>) {
    ReadFrame(cut).Incomplete?
  }

  function CutAt(f: Frame, at: nat): (cut: seq<byte>)
    requires WriteFrame(f).Some?
    ensures CutOff(cut) && cut < WriteFrame(f).value
  {
    var wire := WriteFrame(f).value;
    var cut := wire[..if at < |wire| then at else |wire| - 1];
    CutFrame(f, cut);
    cut
  }

  /**
  Write a batch until it is done, a message is too large, or the stream fails
  after `budget` messages, with up to `cutAt` bytes of the next one gone out.
  */
  method WriteBatch(batch: seq<Tx>, budget: Option<nat>, cutAt: nat)
    returns (written: seq<Tx>, bytes: seq<byte>, cut: seq<byte>, ok: bool)
    ensures written <= batch && (ok <==> written == batch)
    ensures bytes == Wire(FramesOf(written))
    ensures CutOff(cut) && (ok ==> cut == [])
    ensures cut != [] ==> cut < Encoded(ToFrame(batch[|written|]))
    ensures AllFit(written)
    ensures !ok ==> budget == Some(|written|) || !Fits(batch[|written|])
    ensures ok ==> budget.None? || |batch| <= budget.value
  {
    bytes, cut := [], [];
    for i := 0 to |batch|
      invariant bytes == Wire(FramesOf(batch[..i])) && cut == [] && AllFit(batch[..i])
      invariant budget.None? || i <= budget.value
    {
      var f := ToFrame(batch[i]);
      var wire := WriteFrame(f);
      if wire.None? {
        return batch[..i], bytes, [], false;
      }
      if budget == Some(i) {
        cut := CutAt(f, cutAt);
        return batch[..i], bytes, cut, false;
      }
      CutLast(batch, i);
      WireOneMore(batch[..i], batch[i]);
      FitAppend(batch[..i], [batch[i]]);
      bytes := bytes + wire.value;
    }
    TakeAll(batch);
    return batch, bytes, [], true;
  }

  lemma WireConcat(a: seq<Tx>, b: seq<Tx>)
    ensures Wire(FramesOf(a + b)) == Wire(FramesOf(a)) + Wire(FramesOf(b))
  {
    CollectConcat(FrameIn, a, b);
    CollectConcat(Encoded, FramesOf(a), FramesOf(b));
  }

  lemma WireOneMore(ms: seq<Tx>, m: Tx)
    ensures Wire(FramesOf(ms + [m])) == Wire(FramesOf(ms)) + Encoded(ToFrame(m))
  {
    WireConcat(ms, [m]);
    CollectOne(FrameIn, m);
    CollectOne(Encoded, ToFrame(m));
  }

  lemma {:induction false} FramesOfAt(ms: seq<Tx>)
    ensures |FramesOf(ms)| == |ms| && forall i | 0 <= i < |ms| :: FramesOf(ms)[i] == ToFrame(ms[i])
  {
    if ms != [] {
      FramesOfAt(Init(ms));
    }
  }

  /** Handle one inbound frame: what goes back on the queue, what goes to the receiver, and whether to restart. */
  method HandleFrame(f: Frame) returns (replies: seq<Tx>, delivered: seq<Rx>, restart: bool)
    ensures Echoes(replies) == PingPayloads([f]) && Others(replies) == []
    ensures delivered == Packets([f])
    ensures |Echoes(replies)| <= 1 && AllFit(replies)
    ensures restart <==> f.ty == Restarting && |f.payload| >= 8
  {
    CollectOne(PingIn, f);
    CollectOne(PacketIn, f);
    replies, delivered, restart := [], [], false;
    match f.ty {
      case RecvPacket =>
        if |f.payload| >= KEY_LEN {
          delivered := [Rx(f.payload[..KEY_LEN], f.payload[KEY_LEN..])];
        }
      case Ping =>
        if |f.payload| >= ECHO_LEN {
          replies := [Echo(f.payload[..ECHO_LEN])];
          CollectOne(EchoIn, replies[0]);
          CollectOne(OtherIn, replies[0]);
        }
      case Restarting =>
        restart := |f.payload| >= 8;
      case _ =>
    }
  }

  // ---------- the loop ----------

  /** What the environment does in one turn. */
  datatype Turn = Turn(
    before: seq<Tx>,
    writeBudget: Option<nat>,
    cutAt: nat,
    flushFails: bool,
    during: seq<Tx>,
    watchdog: bool)

  /** Callers send anything but pongs; those come from the loop itself. */
  ghost predicate FromCallers(turns: seq<Turn>) {
    forall i | 0 <= i < |turns| :: NoEcho(turns[i].before) && NoEcho(turns[i].during)
  }

  /** Everything callers handed over in some turns, in order. */
  function Offered(turns: seq<Turn>): seq<Tx> {
    if turns == [] then [] else Offered(Init(turns)) + (Last(turns).before + Last(turns).during)
  }

  datatype Outcome = Outcome(
    frames: seq<Frame>,
    log: seq<Tx>,
    wire: seq<byte>,
    cut: seq<byte>,
    batches: seq<seq<Tx>>,
    enqueued: seq<Tx>,
    queue: seq<Tx>,
    delivered: seq<Rx>,
    exited: bool)

  /** Nothing of what was asked for is lost, duplicated or reordered. */
  ghost predicate Conserved(stream: seq<byte>, o: Outcome) {
    && o.frames <= Frames(stream)
    && PingPayloads(o.frames) == Echoes(o.log) + Echoes(o.queue)
    && o.enqueued == Others(o.log) + Others(o.queue)
  }

  /** What holds even after a batch was cut short. */
  ghost predicate WrittenInOrder(stream: seq<byte>, o: Outcome) {
    && o.frames <= Frames(stream)
    && Echoes(o.log) <= PingPayloads(o.frames)
    && Others(o.log) <= o.enqueued
  }

  ghost predicate BatchesOk(batches: seq<seq<Tx>>, log: seq<Tx>) {
    && (forall i | 0 <= i < |batches| :: EchoesFirst(batches[i]))
    && Flatten(batches) == log
  }

  function Flatten(batches: seq<seq<Tx>>): seq<Tx> {
    if batches == [] then [] else Flatten(Init(batches)) + Last(batches)
  }

  /**
  The bytes on the wire are those of the messages written, each of which fits a frame, and
  then part of at most one more.
  */
  ghost predicate WireOk(log: seq<Tx>, wire: seq<byte>, cut: seq<byte>) {
    wire == Wire(FramesOf(log)) + cut && CutOff(cut) && AllFit(log)
  }

  lemma FlattenOneMore(batches: seq<seq<Tx>>, log: seq<Tx>, b: seq<Tx>)
    requires BatchesOk(batches, log) && EchoesFirst(b)
    ensures BatchesOk(batches + [b], log + b)
  {
    assert Init(batches + [b]) == batches;
  }

  /** Draining the queue and writing a prefix of the batch. */
  lemma AfterWrites(stream: seq<byte>, o: Outcome, batch: seq<Tx>, written: seq<Tx>)
    requires Conserved(stream, o) && written <= batch
    requires Echoes(batch) == Echoes(o.queue) && Others(batch) == Others(o.queue)
    ensures WrittenInOrder(stream, o.(log := o.log + written))
    ensures written == batch ==> Conserved(stream, o.(log := o.log + written, queue := []))
  {
    assert batch == written + batch[|written|..];
    Split(written, batch[|written|..]);
    Split(o.log, written);
  }

  /** Messages joining the queue. */
  lemma AfterArrivals(stream: seq<byte>, o: Outcome, ms: seq<Tx>)
    requires Conserved(stream, o) && NoEcho(ms)
    ensures Conserved(stream, o.(queue := o.queue + ms, enqueued := o.enqueued + ms))
  {
    CollectNothing(EchoIn, ms);
    CollectSame(OtherIn, ms);
    Split(o.queue, ms);
    Empty(Echoes(o.queue));
    Assoc(Others(o.log), Others(o.queue), ms);
  }

  /** A frame is read and its replies join the queue. */
  lemma AfterFrame(stream: seq<byte>, o: Outcome, f: Frame, replies: seq<Tx>)
    requires Conserved(stream, o) && o.frames + [f] <= Frames(stream)
    requires Echoes(replies) == PingPayloads([f]) && Others(replies) == []
    ensures Conserved(stream, o.(frames := o.frames + [f], queue := o.queue + replies))
  {
    SplitFrames(o.frames, [f]);
    Split(o.queue, replies);
    Empty(Others(o.queue));
    Assoc(Echoes(o.log), Echoes(o.queue), Echoes(replies));
  }

  /** What every turn keeps. */
  ghost predicate LoopOk(stream: seq<byte>, o: Outcome) {
    && WrittenInOrder(stream, o)
    && (!o.exited ==> Conserved(stream, o) && o.cut == [])
    && o.delivered == Packets(o.frames)
    && BatchesOk(o.batches, o.log)
    && WireOk(o.log, o.wire, o.cut)
  }

  /**
  Nothing of what a turn met had to stop the loop: no watchdog, every message small
  enough, and no failed write or flush if there was something to write.
  */
  predicate WentWell(turn: Turn) {
    && !turn.watchdog && AllFit(turn.before) && (turn.flushFails ==> turn.before == [])
    && (turn.writeBudget.None? || |turn.before| <= turn.writeBudget.value)
  }

  lemma {:induction false} OthersWithin(ms: seq<Tx>)
    ensures |Others(ms)| <= |ms| && (AllFit(ms) ==> AllFit(Others(ms)))
  {
    if ms != [] {
      assert forall i | 0 <= i < |Init(ms)| :: Init(ms)[i] == ms[i];
      assert AllFit(ms) ==> Fits(ms[|ms| - 1]);
      OthersWithin(Init(ms));
    }
  }

  lemma FitSuffix(a: seq<Tx>, b: seq<Tx>)
    requires AllFit(a + b)
    ensures AllFit(b)
  {
    forall i | 0 <= i < |b| ensures Fits(b[i]) {
      assert Fits((a + b)[|a| + i]);
    }
  }

  /** What a batch that was written says of the messages it was to take in. */
  lemma BatchTook(queue: seq<Tx>, before: seq<Tx>, batch: seq<Tx>)
    requires NoEcho(before) && Others(batch) == Others(queue + before)
    ensures |before| <= |batch| && (AllFit(batch) ==> AllFit(before))
  {
    Split(queue, before);
    NoEchoesIn(before);
    OthersWithin(batch);
    if AllFit(batch) {
      FitSuffix(Others(queue), before);
    }
  }

  /** Nothing in this turn's environment stops the loop. */
  ghost predicate CalmTurn(turn: Turn) {
    turn.writeBudget.None? && !turn.flushFails && !turn.watchdog && AllFit(turn.before) && AllFit(turn.during)
  }

  lemma WireGrows(log: seq<Tx>, wire: seq<byte>, written: seq<Tx>, bytes: seq<byte>, cut: seq<byte>)
    requires WireOk(log, wire, []) && bytes == Wire(FramesOf(written)) && AllFit(written) && CutOff(cut)
    ensures WireOk(log + written, wire + bytes + cut, cut)
  {
    WireConcat(log, written);
    Empty(wire);
    Empty(Wire(FramesOf(log)));
  }

  /** The write half of a turn: one batch, echoes first. */
  method SendBatch(ghost stream: seq<byte>, o: Outcome, turn: Turn) returns (o': Outcome)
    requires LoopOk(stream, o) && !o.exited && NoEcho(turn.before) && NoEcho(turn.during)
    ensures LoopOk(stream, o') && o'.frames == o.frames
    ensures o.log <= o'.log && (!o'.exited ==> o'.queue == turn.during)
    ensures o'.enqueued == if o'.exited then o.enqueued + turn.before else o.enqueued + (turn.before + turn.during)
    ensures CalmTurn(turn) && AllFit(o.queue) ==> !o'.exited
    ensures !o'.exited && !turn.watchdog ==> WentWell(turn)
  {
    AfterArrivals(stream, o, turn.before);
    o' := o.(queue := o.queue + turn.before, enqueued := o.enqueued + turn.before);
    var batch := DrainQueue(o'.queue);
    if AllFit(o'.queue) {
      DrawnFit(batch, o'.queue);
    }
    var written, bytes, cut, ok := WriteBatch(batch, turn.writeBudget, turn.cutAt);
    BatchTook(o.queue, turn.before, batch);
    AfterWrites(stream, o', batch, written);
    WireGrows(o'.log, o'.wire, written, bytes, cut);
    PrefixEchoesFirst(batch, written);
    FlattenOneMore(o'.batches, o'.log, written);
    o' := o'.(log := o'.log + written, wire := o'.wire + bytes + cut, cut := cut, batches := o'.batches + [written]);
    if !ok || (batch != [] && turn.flushFails) {
      o' := o'.(exited := true);
    } else {
      o' := o'.(queue := []);
      AfterArrivals(stream, o', turn.during);
      Assoc(o.enqueued, turn.before, turn.during);
      Empty(turn.during);
      o' := o'.(queue := o'.queue + turn.during, enqueued := o'.enqueued + turn.during);
    }
  }

  /** A frame that tells the loop to restart. */
  predicate IsRestart(f: Frame) {
    f.ty == Restarting && |f.payload| >= 8
  }

  /** What the frames read give as a reason to stop: a restart, or an error after the last of them. */
  ghost predicate FramesStop(stream: seq<byte>, frames: seq<Frame>) {
    (frames != [] && IsRestart(Last(frames))) || (frames == Frames(stream) && !Verdict(stream).Incomplete?)
  }

  /** The next answer of the stream is its end or a failure. */
  predicate StreamStops(script: seq<Choice>) {
    script != [] && (script[0].Break? || script[0].Close?)
  }

  /** The reader cannot go on: the script is used up and no complete frame is held. */
  predicate Starved(script: seq<Choice>, buf: seq<byte>) {
    script == [] && ReadFrame(buf).Incomplete?
  }

  /** The read half of a turn: at most one frame, handled. */
  method ReadOne(ghost stream: seq<byte>, reader: FrameReader, io: Stream, o: Outcome) returns (o': Outcome)
    requires Accounts(stream, o.frames, reader.buf + io.incoming)
    requires LoopOk(stream, o) && !o.exited
    modifies reader, io
    ensures Accounts(stream, o'.frames, reader.buf + io.incoming)
    ensures LoopOk(stream, o')
    ensures o.frames <= o'.frames && |o'.frames| <= |o.frames| + 1
    ensures |PingPayloads(o'.frames)| <= |PingPayloads(o.frames)| + 1
    ensures o'.log == o.log && o'.enqueued == o.enqueued && Others(o'.queue) == Others(o.queue)
    ensures |Echoes(o'.queue)| <= |Echoes(o.queue)| + 1 && (AllFit(o.queue) ==> AllFit(o'.queue))
    ensures io.script == old(io.script) || (old(io.script) != [] && io.script == old(io.script)[1..])
    ensures o'.exited ==> FramesStop(stream, o'.frames) || StreamStops(old(io.script))
    ensures !o'.exited ==> o'.frames == o.frames || o'.frames == [] || !IsRestart(Last(o'.frames))
    ensures !o'.exited && old(io.script) != [] && old(io.script)[0].Break? ==> io.script == old(io.script)
    ensures old(Enough(io.incoming, io.script)) ==> Enough(io.incoming, io.script)
    ensures !o'.exited ==> |o.frames| - |old(io.script)| < |o'.frames| - |io.script| || Starved(io.script, reader.buf)
    ensures old(Starved(io.script, reader.buf)) ==> Starved(io.script, reader.buf)
  {
    ghost var left := reader.buf + io.incoming;
    var p := reader.PollFrame(io);
    match p {
      case Got(f) =>
        AccountsForFrame(stream, o.frames, left, f, reader.buf + io.incoming);
        var replies, delivered, restart := HandleFrame(f);
        AfterFrame(stream, o, f, replies);
        SplitFrames(o.frames, [f]);
        o' := o.(frames := o.frames + [f], queue := o.queue + replies,
                 delivered := o.delivered + delivered, exited := restart);
        Split(o.queue, replies);
        Empty(Others(o.queue));
        if AllFit(o.queue) {
          FitAppend(o.queue, replies);
        }
      case NeedMore =>
        o' := o;
      case _ =>
        o' := o.(exited := true);
        if p.Protocol? {
          AccountsForEnd(stream, o.frames, left);
        }
    }
  }

  /** How far the loop got, next to what it was given. */
  ghost predicate Served(turns: seq<Turn>, served: nat, o: Outcome) {
    && served <= |turns|
    && (!o.exited ==>
          && o.enqueued == Offered(turns[..served])
          && (served > 0 ==> Others(o.queue) == turns[served - 1].during && |Echoes(o.queue)| <= 1)
          && (served == 0 ==> o.queue == []))
    && (o.exited ==>
          && served > 0
          && (|| o.enqueued == Offered(turns[..served])
              || o.enqueued == Offered(turns[..served - 1]) + turns[served - 1].before))
  }

  /**
  How far the writes are behind, whether or not the loop has exited: by at most one pong, and by
  what callers handed over since the write of the turn before the last.
  */
  ghost predicate Prompt(turns: seq<Turn>, served: nat, o: Outcome) {
    && served <= |turns|
    && |o.frames| <= served
    && |PingPayloads(o.frames)| <= |Echoes(o.log)| + 1
    && (served > 1 ==> Offered(turns[..served - 2]) + turns[served - 2].before <= Others(o.log))
  }

  lemma OthersGrow(a: seq<Tx>, b: seq<Tx>)
    requires a <= b
    ensures Echoes(a) <= Echoes(b) && Others(a) <= Others(b)
  {
    PrefixAndRest(a, b);
    Split(a, b[|a|..]);
  }

  lemma SameEnd(x: seq<Tx>, y: seq<Tx>, b: seq<Tx>, d: seq<Tx>)
    requires x + d == y + (b + d)
    ensures x == y + b
  {
    Assoc(y, b, d);
    assert (x + d)[..|x|] == x && (y + b + d)[..|x|] == y + b;
  }

  /** A loop that goes on has written everything handed over before its last read. */
  lemma WrittenBefore(stream: seq<byte>, turns: seq<Turn>, i: nat, o: Outcome)
    requires 0 < i <= |turns| && Served(turns, i, o) && Conserved(stream, o) && !o.exited
    ensures Others(o.log) == Offered(turns[..i - 1]) + turns[i - 1].before
  {
    InitOfTake(turns, i - 1);
    SameEnd(Others(o.log), Offered(turns[..i - 1]), turns[i - 1].before, turns[i - 1].during);
  }

  lemma PromptGrows(stream: seq<byte>, turns: seq<Turn>, i: nat, o: Outcome, o': Outcome)
    requires i < |turns| && Served(turns, i, o) && Conserved(stream, o) && !o.exited && |o.frames| <= i
    requires o.log <= o'.log && |o'.frames| <= |o.frames| + 1
    requires o'.frames == o.frames || |PingPayloads(o'.frames)| <= |Echoes(o'.log)| + 1
    ensures Prompt(turns, i + 1, o')
  {
    OthersGrow(o.log, o'.log);
    if i > 0 {
      WrittenBefore(stream, turns, i, o);
    }
  }

  /** The first answers of a script. */
  function Met(script: seq<Choice>, n: nat): seq<Choice> {
    script[..if n < |script| then n else |script|]
  }

  /**
  Why the loop stopped in its last turn: a message or a call of that turn failed, or the
  inbound side gave a reason.
  */
  ghost predicate Caused(stream: seq<byte>, script: seq<Choice>, turns: seq<Turn>, served: nat, o: Outcome) {
    && 0 < served <= |turns|
    && (|| !CalmTurn(turns[served - 1])
        || (served > 1 && !AllFit(turns[served - 2].during))
        || FramesStop(stream, o.frames)
        || Break in Met(script, served) || Close in Met(script, served))
  }

  /** One more turn, with what it promises of the outcome. */
  lemma ServedGrows(turns: seq<Turn>, i: nat, o: Outcome, o': Outcome)
    requires i < |turns| && Served(turns, i, o) && !o.exited
    requires !o'.exited ==>
               && o'.enqueued == o.enqueued + (turns[i].before + turns[i].during)
               && Others(o'.queue) == turns[i].during && |Echoes(o'.queue)| <= 1
    requires o'.exited ==>
               || o'.enqueued == o.enqueued + turns[i].before
               || o'.enqueued == o.enqueued + (turns[i].before + turns[i].during)
    ensures Served(turns, i + 1, o')
  {
    InitOfTake(turns, i);
  }

  lemma NoEchoesIn(ms: seq<Tx>)
    requires NoEcho(ms)
    ensures Echoes(ms) == [] && Others(ms) == ms
  {
    CollectNothing(EchoIn, ms);
    CollectSame(OtherIn, ms);
  }

  lemma WireReadsBack(log: seq<Tx>, wire: seq<byte>, cut: seq<byte>)
    requires WireOk(log, wire, cut)
    ensures Frames(wire) == FramesOf(log)
  {
    FramesOfAt(log);
    WireThenRead(FramesOf(log), cut);
    Empty(FramesOf(log));
  }

  lemma PongsArePings(stream: seq<byte>, o: Outcome)
    requires WrittenInOrder(stream, o)
    ensures Echoes(o.log) <= PingPayloads(Frames(stream))
  {
    PrefixAndRest(o.frames, Frames(stream));
    var rest := Frames(stream)[|o.frames|..];
    SplitFrames(o.frames, rest);
    PrefixOfAppend(Echoes(o.log), PingPayloads(o.frames), PingPayloads(rest));
  }

  lemma AllFramesRead(stream: seq<byte>, frames: seq<Frame>, buf: seq<byte>, incoming: seq<byte>, script: seq<Choice>)
    requires Accounts(stream, frames, buf + incoming)
    ensures |frames| <= |Frames(stream)|
    ensures Enough(incoming, script) && Starved(script, buf) ==> frames == Frames(stream)
  {
    Empty(buf);
    if Enough(incoming, script) && Starved(script, buf) {
      AccountsForEnd(stream, frames, buf + incoming);
    }
  }

  /** The bytes the reader holds, those on their way, and how they will come. */
  datatype Inbound = Inbound(buf: seq<byte>, incoming: seq<byte>, script: seq<Choice>)

  /** A turn after which the loop goes on met nothing to stop it, in its frame and its answer too. */
  predicate KeepsGoing(turn: Turn, frames: seq<Frame>, frames': seq<Frame>, was: seq<Choice>, now: seq<Choice>) {
    && WentWell(turn)
    && (frames' == frames || frames' == [] || !IsRestart(Last(frames')))
    && (was != [] && was[0].Break? ==> now == was)
  }

  /** What one whole turn does. */
  ghost predicate Advanced(stream: seq<byte>, turn: Turn, o: Outcome, was: Inbound, o': Outcome, now: Inbound) {
    && LoopOk(stream, o') && Accounts(stream, o'.frames, now.buf + now.incoming)
    && (!o'.exited ==>
          && o'.enqueued == o.enqueued + (turn.before + turn.during)
          && Others(o'.queue) == turn.during && |Echoes(o'.queue)| <= 1)
    && (o'.exited ==>
          || o'.enqueued == o.enqueued + turn.before
          || o'.enqueued == o.enqueued + (turn.before + turn.during))
    && (o'.exited ==> !CalmTurn(turn) || !AllFit(o.queue) || FramesStop(stream, o'.frames) || StreamStops(was.script))
    && (!o'.exited && AllFit(turn.during) ==> AllFit(o'.queue))
    && o.log <= o'.log && o.frames <= o'.frames && |o'.frames| <= |o.frames| + 1
    && (!o'.exited ==> KeepsGoing(turn, o.frames, o'.frames, was.script, now.script))
    && (o'.frames == o.frames || |PingPayloads(o'.frames)| <= |Echoes(o'.log)| + 1)
    && (now.script == was.script || (was.script != [] && now.script == was.script[1..]))
    && (Enough(was.incoming, was.script) ==> Enough(now.incoming, now.script))
    && (!o'.exited ==> |o.frames| - |was.script| < |o'.frames| - |now.script| || Starved(now.script, now.buf))
    && (Starved(was.script, was.buf) ==> Starved(now.script, now.buf))
  }

  method TakeTurn(ghost stream: seq<byte>, reader: FrameReader, io: Stream, o: Outcome, turn: Turn)
    returns (o': Outcome)
    requires Accounts(stream, o.frames, reader.buf + io.incoming)
    requires LoopOk(stream, o) && !o.exited && NoEcho(turn.before) && NoEcho(turn.during)
    modifies reader, io
    ensures Advanced(stream, turn, o, old(Inbound(reader.buf, io.incoming, io.script)),
                     o', Inbound(reader.buf, io.incoming, io.script))
  {
    o' := SendBatch(stream, o, turn);
    if o'.exited {
      return;
    }
    NoEchoesIn(turn.during);
    o' := ReadOne(stream, reader, io, o');
    if turn.watchdog {
      o' := o'.(exited := true);
    }
  }

  /** What is left of a script after at most so many answers. */
  predicate After(script: seq<Choice>, now: seq<Choice>, answers: nat) {
    |now| <= |script| <= |now| + answers && now == script[|script| - |now|..]
  }

  lemma AfterOneMore(script: seq<Choice>, was: seq<Choice>, now: seq<Choice>, answers: nat)
    requires After(script, was, answers) && (now == was || (was != [] && now == was[1..]))
    ensures After(script, now, answers + 1)
  {
  }

  /** The turns, the frames and the answers of the stream that the loop went on after gave no reason to stop. */
  ghost predicate NoReason(script: seq<Choice>, turns: seq<Turn>, served: nat, o: Outcome, left: seq<Choice>) {
    && served <= |turns| && |left| <= |script|
    && (forall i | 0 <= i < (if o.exited then served - 1 else served) :: WentWell(turns[i]))
    && (forall i | 0 <= i < (if o.exited then |o.frames| - 1 else |o.frames|) :: !IsRestart(o.frames[i]))
    && (!o.exited ==> forall i | 0 <= i < |script| - |left| :: !script[i].Break?)
  }

  lemma NoReasonYet(script: seq<Choice>, turns: seq<Turn>, i: nat, o: Outcome, was: seq<Choice>,
                    o': Outcome, now: seq<Choice>)
    requires i < |turns| && !o.exited && NoReason(script, turns, i, o, was) && After(script, was, i)
    requires o.frames <= o'.frames && |o'.frames| <= |o.frames| + 1
    requires now == was || (was != [] && now == was[1..])
    requires !o'.exited ==> KeepsGoing(turns[i], o.frames, o'.frames, was, now)
    ensures NoReason(script, turns, i + 1, o', now)
  {
    assert forall k | 0 <= k < |o.frames| :: o'.frames[k] == o.frames[k];
    if now != was {
      assert was[0] == script[|script| - |was|];
    }
  }

  /** What holds between turns. */
  ghost predicate Going(stream: seq<byte>, script: seq<Choice>, turns: seq<Turn>, served: nat, o: Outcome,
                        now: Inbound) {
    && Served(turns, served, o) && Prompt(turns, served, o) && NoReason(script, turns, served, o, now.script)
    && LoopOk(stream, o) && Accounts(stream, o.frames, now.buf + now.incoming)
    && After(script, now.script, served)
    && (o.exited ==> Caused(stream, script, turns, served, o))
    && (!o.exited && (served == 0 || AllFit(turns[served - 1].during)) ==> AllFit(o.queue))
    && (|stream| <= Deliveries(script) ==> Enough(now.incoming, now.script))
    && (!o.exited ==> served <= |o.frames| + |script| - |now.script| || Starved(now.script, now.buf))
  }

  lemma FindCause(stream: seq<byte>, script: seq<Choice>, turns: seq<Turn>, i: nat, o: Outcome, was: Inbound,
                  o': Outcome)
    requires i < |turns| && After(script, was.script, i) && (i == 0 || AllFit(turns[i - 1].during) ==> AllFit(o.queue))
    requires !CalmTurn(turns[i]) || !AllFit(o.queue) || FramesStop(stream, o'.frames) || StreamStops(was.script)
    ensures Caused(stream, script, turns, i + 1, o')
  {
    if StreamStops(was.script) {
      var k := |script| - |was.script|;
      assert was.script[0] == script[k] == Met(script, i + 1)[k];
    }
  }

  lemma GoingOn(stream: seq<byte>, script: seq<Choice>, turns: seq<Turn>, i: nat, o: Outcome, was: Inbound,
                o': Outcome, now: Inbound)
    requires i < |turns| && !o.exited && Going(stream, script, turns, i, o, was)
    requires Advanced(stream, turns[i], o, was, o', now)
    ensures Going(stream, script, turns, i + 1, o', now)
  {
    ServedGrows(turns, i, o, o');
    PromptGrows(stream, turns, i, o, o');
    NoReasonYet(script, turns, i, o, was.script, o', now.script);
    AfterOneMore(script, was.script, now.script, i);
    if o'.exited {
      FindCause(stream, script, turns, i, o, was, o');
    }
  }

  lemma GoneThrough(stream: seq<byte>, script: seq<Choice>, turns: seq<Turn>, o: Outcome, now: Inbound)
    requires !o.exited && Going(stream, script, turns, |turns|, o, now)
    requires |stream| <= Deliveries(script) && |turns| > |Frames(stream)| + |script|
    ensures o.frames == Frames(stream)
  {
    AllFramesRead(stream, o.frames, now.buf, now.incoming, now.script);
  }

  const NOTHING_YET := Outcome([], [], [], [], [], [], [], [], false)

  lemma GoingFirst(stream: seq<byte>, script: seq<Choice>, turns: seq<Turn>)
    ensures Going(stream, script, turns, 0, NOTHING_YET, Inbound([], stream, script))
  {
    Empty(stream);
    Empty(Frames(stream));
    assert script == script[0..];
  }

  method ServeOne(ghost stream: seq<byte>, ghost script: seq<Choice>, turns: seq<Turn>, reader: FrameReader, io: Stream,
                  o: Outcome, i: nat, ghost was: Inbound)
    returns (o': Outcome, ghost now: Inbound)
    requires FromCallers(turns) && i < |turns| && !o.exited
    requires was == Inbound(reader.buf, io.incoming, io.script) && Going(stream, script, turns, i, o, was)
    modifies reader, io
    ensures now == Inbound(reader.buf, io.incoming, io.script) && Going(stream, script, turns, i + 1, o', now)
  {
    o' := TakeTurn(stream, reader, io, o, turns[i]);
    now := Inbound(reader.buf, io.incoming, io.script);
    GoingOn(stream, script, turns, i, o, was, o', now);
  }

  method RunTurns(ghost stream: seq<byte>, ghost script: seq<Choice>, turns: seq<Turn>, reader: FrameReader, io: Stream,
                  i: nat, start: Outcome, ghost was: Inbound)
    returns (o: Outcome, served: nat, ghost now: Inbound)
    requires FromCallers(turns)
    requires was == Inbound(reader.buf, io.incoming, io.script) && Going(stream, script, turns, i, start, was)
    modifies reader, io
    ensures Going(stream, script, turns, served, o, now) && (o.exited || served == |turns|)
    ensures now.script == io.script
    decreases |turns| - i
  {
    if i == |turns| || start.exited {
      return start, i, was;
    }
    var next, after := ServeOne(stream, script, turns, reader, io, start, i, was);
    o, served, now := RunTurns(stream, script, turns, reader, io, i + 1, next, after);
  }

  /**
  Any run of the loop. Pong payloads go out as a prefix, in order, of the pings
  received, other messages as a prefix of what callers handed over; every batch has
  its pongs in front. While the loop has not exited nothing is missing: what was
  handed over before the last read is on the wire, and at most one ping waits for its
  pong. After an exit too at most one ping goes without its pong, and only what was
  handed over since the write before the last may be missing. It exits only for a
  cause, and it reads every frame of a stream that keeps delivering. The bytes written
  read back as the messages written, even when the last write was cut short.
  */
  method IoLoop(stream: seq<byte>, script: seq<Choice>, turns: seq<Turn>)
    returns (o: Outcome, served: nat, left: seq<Choice>)
    requires FromCallers(turns)
    ensures LoopOk(stream, o) && Served(turns, served, o) && (!o.exited ==> served == |turns|)
    ensures Prompt(turns, served, o)
    ensures Echoes(o.log) <= PingPayloads(Frames(stream))
    ensures Pongs(Frames(o.wire)) == Echoes(o.log) && Messages(Frames(o.wire)) == Others(o.log)
    ensures Frames(o.wire) == FramesOf(o.log)
    ensures o.exited ==> Caused(stream, script, turns, served, o)
    ensures After(script, left, served) && NoReason(script, turns, served, o, left)
    ensures !o.exited && |stream| <= Deliveries(script) && |turns| > |Frames(stream)| + |script|
            ==> o.frames == Frames(stream)
  {
    var io := new Stream(stream, script);
    var reader := new FrameReader();
    GoingFirst(stream, script, turns);
    ghost var now;
    o, served, now := RunTurns(stream, script, turns, reader, io, 0, NOTHING_YET, Inbound([], stream, script));
    left := io.script;
    PongsArePings(stream, o);
    WireReadsBack(o.log, o.wire, o.cut);
    AllUnderstood(o.log);
    if !o.exited && |stream| <= Deliveries(script) && |turns| > |Frames(stream)| + |script| {
      GoneThrough(stream, script, turns, o, now);
    }
  }
}
