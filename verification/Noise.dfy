/**
The Noise record stream of the control connection.

Plaintext is cut into records, each sealed under the next nonce and sent as
`0x04 || length || ciphertext`. The other side reassembles records from bytes
that arrive in arbitrary pieces, the first of which may already have come in
together with the handshake response. The cipher is symbolic: all that is known
of it is that opening what was sealed under the same nonce gives it back, and
that sealing adds a tag of sixteen bytes.
*/
module Noise {
  import opened Common
  import opened ByteStream

  const MSG_TYPE_RECORD: byte := 0x04
  const HEADER_LEN := 3
  const TAG_LEN := 16
  const NOISE_MAX_RECORD_PAYLOAD := 65535 - 16
  const SERVER_RESP_LEN := 51

  datatype Aead = Aead(seal: (nat, seq<byte>) -> seq<byte>, open: (nat, seq<byte>) -> Option<seq<byte>>)

  ghost predicate Correct(a: Aead) {
    forall n: nat, p: seq<byte> :: |a.seal(n, p)| == |p| + TAG_LEN && a.open(n, a.seal(n, p)) == Some(p)
  }

  /** The plaintexts of some records. */
  type Payloads = seq<seq<byte>>

  /** Each plaintext is small enough for one record. */
  ghost predicate Fit(ps: Payloads) {
    forall i | 0 <= i < |ps| :: |ps[i]| <= NOISE_MAX_RECORD_PAYLOAD
  }

  // ---------- the wire ----------

  /** One record. The length field is cut to sixteen bits, as a cast cuts it. */
  function Record(a: Aead, n: nat, p: seq<byte>): seq<byte> {
    var ct := a.seal(n, p);
    [MSG_TYPE_RECORD] + Be16(|ct| % 0x1_0000) + ct
  }

  /** The records of some payloads, the first sealed under nonce `n`. */
  function Wire(a: Aead, n: nat, ps: Payloads): seq<byte>
    decreases |ps|
  {
    if ps == [] then [] else Record(a, n, ps[0]) + Wire(a, n + 1, ps[1..])
  }

  /** The length field tells the true length exactly for the payloads the sender lets through. */
  lemma LengthFieldExact(a: Aead, n: nat, p: seq<byte>)
    requires Correct(a)
    ensures var r := Record(a, n, p);
            && |r| == HEADER_LEN + |p| + TAG_LEN && r[0] == MSG_TYPE_RECORD && r[HEADER_LEN..] == a.seal(n, p)
            && (U16(r[1], r[2]) == |p| + TAG_LEN <==> |p| <= NOISE_MAX_RECORD_PAYLOAD)
  {
    var ct := a.seal(n, p);
    assert |ct| == |p| + TAG_LEN;
  }

  /** A record the sender lets through, octet by octet. */
  lemma RecordOctets(a: Aead, n: nat, p: seq<byte>)
    requires Correct(a) && |p| <= 65519
    ensures Record(a, n, p) == [0x04] + Be16(|p| + 16) + a.seal(n, p)
  {
    assert |a.seal(n, p)| == |p| + TAG_LEN;
  }

  /** The plaintext some payloads carry. */
  function Plain(ps: Payloads): seq<byte> {
    if ps == [] then [] else ps[0] + Plain(ps[1..])
  }

  /** How a write is cut into payloads. */
  function Chunks(buf: seq<byte>): Payloads {
    if buf == [] then []
    else if |buf| <= NOISE_MAX_RECORD_PAYLOAD then [buf]
    else [buf[..NOISE_MAX_RECORD_PAYLOAD]] + Chunks(buf[NOISE_MAX_RECORD_PAYLOAD..])
  }

  /** Cutting loses nothing and makes no empty record. */
  lemma {:induction false} ChunksWhole(buf: seq<byte>)
    ensures Plain(Chunks(buf)) == buf && Fit(Chunks(buf))
    ensures forall i | 0 <= i < |Chunks(buf)| :: Chunks(buf)[i] != []
  {
    if |buf| > NOISE_MAX_RECORD_PAYLOAD {
      ChunksWhole(buf[NOISE_MAX_RECORD_PAYLOAD..]);
      Rejoin(buf, NOISE_MAX_RECORD_PAYLOAD);
    } else if buf != [] {
      assert Chunks(buf)[1..] == [];
      Empty(buf);
    }
  }

  lemma {:induction false} PlainConcat(a: Payloads, b: Payloads)
    ensures Plain(a + b) == Plain(a) + Plain(b)
  {
    if a == [] {
      Empty(b);
      Empty(Plain(b));
    } else {
      assert (a + b)[1..] == a[1..] + b;
      PlainConcat(a[1..], b);
      Assoc(a[0], Plain(a[1..]), Plain(b));
    }
  }

  lemma {:induction false} WireConcat(a: Aead, n: nat, ps: Payloads, qs: Payloads)
    ensures Wire(a, n, ps + qs) == Wire(a, n, ps) + Wire(a, n + |ps|, qs)
    decreases |ps|
  {
    if ps == [] {
      Empty(qs);
      Empty(Wire(a, n, qs));
    } else {
      assert (ps + qs)[1..] == ps[1..] + qs;
      WireConcat(a, n + 1, ps[1..], qs);
      Assoc(Record(a, n, ps[0]), Wire(a, n + 1, ps[1..]), Wire(a, n + |ps|, qs));
    }
  }

  /** The wire and the plaintext up to a record, and one record further. */
  lemma NextRecord(ps: Payloads, i: nat)
    requires i < |ps|
    ensures Plain(ps[..i + 1]) == Plain(ps[..i]) + ps[i]
    ensures ps[i..][0] == ps[i] && ps[i..][1..] == ps[i + 1..]
  {
    CutLast(ps, i);
    var one: Payloads := [ps[i]];
    PlainConcat(ps[..i], one);
    assert one[1..] == [];
    Empty(ps[i]);
  }

  /** Bytes that begin the wire show the first record's header, and its body once they reach that far. */
  lemma FrontRecord(a: Aead, n: nat, ps: Payloads, x: seq<byte>)
    requires Correct(a) && Fit(ps) && x <= Wire(a, n, ps)
    ensures |x| > 0 ==> ps != [] && x[0] == MSG_TYPE_RECORD
    ensures |x| >= HEADER_LEN ==> U16(x[1], x[2]) == |ps[0]| + TAG_LEN
    ensures ps != [] ==> |Wire(a, n, ps)| == HEADER_LEN + |ps[0]| + TAG_LEN + |Wire(a, n + 1, ps[1..])|
    ensures |x| >= HEADER_LEN && |x| >= HEADER_LEN + U16(x[1], x[2]) ==>
              var total := HEADER_LEN + U16(x[1], x[2]);
              && x[HEADER_LEN..total] == a.seal(n, ps[0])
              && x[total..] <= Wire(a, n + 1, ps[1..])
  {
    if ps != [] {
      LengthFieldExact(a, n, ps[0]);
      var r, w := Record(a, n, ps[0]), Wire(a, n + 1, ps[1..]);
      assert forall i | 0 <= i < |x| :: x[i] == (r + w)[i];
      if |x| >= |r| {
        assert x[HEADER_LEN..|r|] == r[HEADER_LEN..];
        assert x[|r|..] <= w;
      }
    }
  }

  // ---------- sending ----------

  class Sender {
    const aead: Aead
    var nonce: nat
    var wire: seq<byte>

    constructor (aead: Aead)
      ensures this.aead == aead && nonce == 0 && wire == []
    {
      this.aead, nonce, wire := aead, 0, [];
    }

    /** Seal one payload and append its record; refuses a payload that does not fit. */
    method WriteRecord(plaintext: seq<byte>) returns (record: Option<seq<byte>>)
      modifies this
      ensures record.Some? <==> |plaintext| <= 65519
      ensures record.Some? ==> record.value == Record(aead, old(nonce), plaintext) && nonce == old(nonce) + 1
      ensures record.None? ==> nonce == old(nonce)
      ensures wire == old(wire)
    {
      if |plaintext| > NOISE_MAX_RECORD_PAYLOAD {
        return None;
      }
      var ct := aead.seal(nonce, plaintext);
      nonce := nonce + 1;
      return Some([MSG_TYPE_RECORD] + Be16(|ct| % 0x1_0000) + ct);
    }

    /** Write a buffer; the stream below takes only `room` more bytes, if it is limited. */
    method Write(buf: seq<byte>, room: Option<nat>) returns (ok: bool)
      modifies this
      ensures ok ==> wire == old(wire) + Wire(aead, old(nonce), Chunks(buf)) && nonce == old(nonce) + |Chunks(buf)|
      ensures !ok ==> room.Some? && wire <= old(wire) + Wire(aead, old(nonce), Chunks(buf))
      ensures old(wire) <= wire
    {
      var rest := buf;
      var left: Option<nat> := room;
      ghost var whole := wire + Wire(aead, nonce, Chunks(buf));
      while rest != []
        invariant whole == wire + Wire(aead, nonce, Chunks(rest)) && old(wire) <= wire
        invariant nonce + |Chunks(rest)| == old(nonce) + |Chunks(buf)|
        invariant left.Some? ==> room.Some?
        decreases |rest|
      {
        var n := if |rest| < NOISE_MAX_RECORD_PAYLOAD then |rest| else NOISE_MAX_RECORD_PAYLOAD;
        ghost var start := nonce;
        FirstRecord(aead, nonce, rest, n);
        var record := WriteRecord(rest[..n]);
        assert nonce == start + 1;
        ghost var tail := Wire(aead, nonce, Chunks(rest[n..]));
        Assoc(wire, record.value, tail);
        assert whole == (wire + record.value) + tail;
        if left.Some? && left.value < |record.value| {
          PrefixOfSum(wire, record.value, left.value, tail);
          wire := wire + record.value[..left.value];
          return false;
        }
        left := if left.Some? then Some(left.value - |record.value|) else None;
        wire := wire + record.value;
        rest := rest[n..];
      }
      Empty(wire);
      return true;
    }
  }

  /** The wire of a buffer begins with the record of its first piece. */
  lemma FirstRecord(a: Aead, nonce: nat, buf: seq<byte>, n: nat)
    requires buf != []
    requires n == if |buf| < NOISE_MAX_RECORD_PAYLOAD then |buf| else NOISE_MAX_RECORD_PAYLOAD
    ensures Wire(a, nonce, Chunks(buf)) == Record(a, nonce, buf[..n]) + Wire(a, nonce + 1, Chunks(buf[n..]))
    ensures |Chunks(buf)| == 1 + |Chunks(buf[n..])|
  {
    if |buf| <= NOISE_MAX_RECORD_PAYLOAD {
      assert buf[..|buf|] == buf && buf[|buf|..] == [];
    }
    assert Chunks(buf)[0] == buf[..n] && Chunks(buf)[1..] == Chunks(buf[n..]);
  }

  lemma PrefixOfSum(w: seq<byte>, r: seq<byte>, k: nat, t: seq<byte>)
    requires k <= |r|
    ensures w <= w + r[..k] <= (w + r) + t
  {
  }

  // ---------- receiving ----------

  /**
  `pending` continues the wire at `nonce`, all but its last `missing` bytes, and
  `plain` is the plaintext of the records before that.
  */
  ghost predicate Aligned(a: Aead, sent: Payloads, missing: nat, nonce: nat, pending: seq<byte>, plain: seq<byte>) {
    && Correct(a) && Fit(sent)
    && nonce <= |sent|
    && pending <= Wire(a, nonce, sent[nonce..])
    && |pending| + missing == |Wire(a, nonce, sent[nonce..])|
    && plain == Plain(sent[..nonce])
  }

  /** What the front of the pending bytes shows. */
  lemma SeeHeader(a: Aead, sent: Payloads, missing: nat, nonce: nat, pending: seq<byte>, plain: seq<byte>)
    requires Aligned(a, sent, missing, nonce, pending, plain)
    ensures |pending| >= HEADER_LEN ==>
              nonce < |sent| && pending[0] == MSG_TYPE_RECORD && U16(pending[1], pending[2]) == |sent[nonce]| + TAG_LEN
    ensures missing == 0 && nonce < |sent| ==> |pending| >= HEADER_LEN + |sent[nonce]| + TAG_LEN
    ensures nonce == |sent| ==> plain == Plain(sent)
  {
    FrontRecord(a, nonce, sent[nonce..], pending);
    assert sent[..|sent|] == sent;
  }

  /** A complete record opens to the next payload and leaves the rest aligned. */
  lemma TakeRecord(a: Aead, sent: Payloads, missing: nat, nonce: nat, pending: seq<byte>, plain: seq<byte>)
    requires Aligned(a, sent, missing, nonce, pending, plain)
    requires |pending| >= HEADER_LEN && |pending| >= HEADER_LEN + U16(pending[1], pending[2])
    ensures var total := HEADER_LEN + U16(pending[1], pending[2]);
            && nonce < |sent|
            && a.open(nonce, pending[HEADER_LEN..total]) == Some(sent[nonce])
            && Aligned(a, sent, missing, nonce + 1, pending[total..], plain + sent[nonce])
  {
    FrontRecord(a, nonce, sent[nonce..], pending);
    NextRecord(sent, nonce);
  }

  datatype Outcome = Bytes(bytes: seq<byte>) | Retry | Ended | Io | Corrupt

  class Receiver {
    const aead: Aead
    const inner: Stream
    var nonce: nat
    var rxBuf: seq<byte>
    var rxPlain: seq<byte>
    var eof: bool
    ghost const sent: Payloads
    ghost const missing: nat
    ghost var read: seq<byte>

    /** The bytes held and on their way, and the plaintext read and ready, are in step with what was sent. */
    ghost predicate InStep()
      reads this, inner
    {
      && Aligned(aead, sent, missing, nonce, rxBuf + inner.incoming, read + rxPlain)
      && (eof ==> inner.incoming == [])
    }

    constructor (aead: Aead, inner: Stream, leftover: seq<byte>, ghost sent: Payloads)
      requires Correct(aead) && Fit(sent) && leftover + inner.incoming <= Wire(aead, 0, sent)
      ensures this.aead == aead && this.inner == inner && this.sent == sent
      ensures missing == |Wire(aead, 0, sent)| - |leftover + inner.incoming|
      ensures InStep() && read == []
    {
      this.aead, this.inner, this.sent := aead, inner, sent;
      missing := |Wire(aead, 0, sent)| - |leftover + inner.incoming|;
      nonce, rxBuf, rxPlain, eof, read := 0, leftover, [], false, [];
      new;
      assert sent[0..] == sent && sent[..0] == [];
    }

    method FillUntil(required: nat) returns (r: Outcome)
      modifies this`rxBuf, this`eof, inner
      ensures rxBuf + inner.incoming == old(rxBuf + inner.incoming)
      ensures r == Bytes([]) || r.Retry? || r.Ended? || r.Io?
      ensures r.Bytes? <==> |rxBuf| >= required
      ensures old(eof ==> inner.incoming == []) ==> (eof ==> inner.incoming == [])
      ensures r.Ended? && old(eof ==> inner.incoming == []) ==> inner.incoming == []
      ensures r.Ended? ==> old(eof) || Close in old(inner.script)
      // The end is remembered, and then the stream is not asked again.
      ensures r.Ended? ==> eof
      ensures old(eof) ==> eof && inner.script == old(inner.script)
      ensures r.Retry? ==> inner.incoming == [] || inner.script == [] || TimeOut in old(inner.script)
      ensures Later(old(inner.script), inner.script)
      ensures old(Enough(inner.incoming, inner.script)) ==> Enough(inner.incoming, inner.script)
      ensures r.Io? ==> Break in old(inner.script)
      ensures r.Retry? ==> inner.script == [] || |inner.script| < |old(inner.script)|
    {
      while |rxBuf| < required
        invariant rxBuf + inner.incoming == old(rxBuf + inner.incoming)
        invariant old(eof ==> inner.incoming == []) ==> (eof ==> inner.incoming == [])
        invariant eof == old(eof) && (eof ==> inner.script == old(inner.script))
        invariant Later(old(inner.script), inner.script)
        invariant old(Enough(inner.incoming, inner.script)) ==> Enough(inner.incoming, inner.script)
        decreases required - |rxBuf|
      {
        if eof {
          return Ended;
        }
        var got := inner.Read(4096);
        match got {
          case Eof =>
            eof := true;
            return Ended;
          case WouldBlock =>
            return Retry;
          case IoError =>
            return Io;
          case Data(bytes) =>
            Assoc(rxBuf, bytes, inner.incoming);
            rxBuf := rxBuf + bytes;
        }
      }
      return Bytes([]);
    }

    /** Bring one whole record into the buffer; `total` is its size there. */
    method FillRecord() returns (r: Outcome, total: nat)
      requires InStep()
      modifies this`rxBuf, this`eof, inner
      ensures InStep() && rxBuf + inner.incoming == old(rxBuf + inner.incoming)
      ensures !r.Corrupt?
      ensures r.Bytes? ==> HEADER_LEN <= total <= |rxBuf| && total == HEADER_LEN + U16(rxBuf[1], rxBuf[2])
      ensures r.Ended? ==> inner.incoming == []
      ensures (r.Ended? || r.Retry?) && inner.incoming == [] && missing == 0 ==> nonce == |sent|
      ensures (r.Ended? ==> eof) && (old(eof) ==> eof && inner.script == old(inner.script))
      ensures Later(old(inner.script), inner.script)
      ensures old(Enough(inner.incoming, inner.script)) ==> Enough(inner.incoming, inner.script)
      ensures r.Io? ==> Break in old(inner.script)
      ensures r.Retry? ==> inner.script == [] || |inner.script| < |old(inner.script)|
    {
      total := 0;
      ghost var pending := rxBuf + inner.incoming;
      SeeHeader(aead, sent, missing, nonce, pending, read + rxPlain);
      r := FillUntil(HEADER_LEN);
      if !r.Bytes? {
        return;
      }
      assert pending[0] == rxBuf[0] && pending[1] == rxBuf[1] && pending[2] == rxBuf[2];
      if rxBuf[0] != MSG_TYPE_RECORD {
        r := Corrupt;
        return;
      }
      total := HEADER_LEN + U16(rxBuf[1], rxBuf[2]);
      r := FillUntil(total);
      assert r.Bytes? ==> pending[1] == rxBuf[1] && pending[2] == rxBuf[2];
    }

    /** Open the whole record of size `total` at the front of the buffer. */
    method TakeFront(total: nat) returns (r: Outcome)
      requires InStep() && rxPlain == []
      requires HEADER_LEN <= total <= |rxBuf| && total == HEADER_LEN + U16(rxBuf[1], rxBuf[2])
      modifies this`nonce, this`rxBuf, this`rxPlain
      ensures InStep() && r == Bytes([])
      ensures nonce == old(nonce) + 1 && rxPlain == sent[old(nonce)]
    {
      TakeRecord(aead, sent, missing, nonce, rxBuf + inner.incoming, read + rxPlain);
      SliceOfAppend(rxBuf, inner.incoming, HEADER_LEN, total);
      Empty(read);
      var plain := aead.open(nonce, rxBuf[HEADER_LEN..total]);
      if plain.None? {
        r := Corrupt;
        return;
      }
      nonce := nonce + 1;
      rxBuf := rxBuf[total..];
      rxPlain := plain.value;
      r := Bytes([]);
    }

    /** Take one record off the front of the buffer. On a genuine wire it is never corrupt. */
    method DrainOneRecord() returns (r: Outcome)
      requires InStep() && rxPlain == []
      modifies this, inner
      ensures InStep() && read == old(read)
      ensures !r.Corrupt?
      ensures if r.Bytes? then nonce == old(nonce) + 1 && rxPlain == sent[old(nonce)]
              else nonce == old(nonce) && rxPlain == []
      ensures r.Ended? ==> inner.incoming == []
      ensures (r.Ended? || r.Retry?) && inner.incoming == [] && missing == 0 ==> nonce == |sent|
      ensures (r.Ended? ==> eof) && (old(eof) ==> eof && inner.script == old(inner.script))
      ensures Later(old(inner.script), inner.script)
      ensures old(Enough(inner.incoming, inner.script)) ==> Enough(inner.incoming, inner.script)
      ensures r.Io? ==> Break in old(inner.script)
      ensures r.Retry? ==> inner.script == [] || |inner.script| < |old(inner.script)|
    {
      var total;
      r, total := FillRecord();
      if !r.Bytes? {
        return;
      }
      r := TakeFront(total);
    }

    /** Read at most `max` bytes of plaintext; a timeout loses nothing. */
    method Read(max: nat) returns (r: Outcome)
      requires InStep()
      modifies this, inner
      ensures InStep()
      ensures r.Bytes? ==> |r.bytes| <= max && read == old(read) + r.bytes
      ensures !r.Bytes? ==> read == old(read)
      ensures !r.Corrupt?
      // Nothing is returned for a non-empty buffer exactly when an empty record was taken.
      ensures r.Bytes? && max > 0 && r.bytes == [] ==>
                old(rxPlain) == [] && nonce == old(nonce) + 1 && sent[old(nonce)] == []
      // The end comes only after every byte, and when nothing more is on its way everything sent has been read.
      ensures r.Ended? ==> inner.incoming == []
      ensures (r.Ended? || r.Retry?) && inner.incoming == [] && missing == 0 ==> read == Plain(sent)
      ensures (r.Ended? ==> eof) && (old(eof) ==> eof && inner.script == old(inner.script))
      ensures Later(old(inner.script), inner.script)
      ensures old(Enough(inner.incoming, inner.script)) ==> Enough(inner.incoming, inner.script)
      ensures r.Io? ==> Break in old(inner.script)
      ensures r.Retry? ==> inner.script == [] || |inner.script| < |old(inner.script)|
    {
      if rxPlain == [] {
        r := DrainOneRecord();
        if !r.Bytes? {
          Empty(read);
          SeeHeader(aead, sent, missing, nonce, rxBuf + inner.incoming, read + rxPlain);
          return;
        }
      }
      var n := if max < |rxPlain| then max else |rxPlain|;
      var bytes := rxPlain[..n];
      Rejoin(rxPlain, n);
      Assoc(read, bytes, rxPlain[n..]);
      rxPlain := rxPlain[n..];
      read := read + bytes;
      return Bytes(bytes);
    }
  }

  // ---------- the handshake response ----------

  /** Split the fixed-size response off the front; what came in behind it is handed on, and no more is read. */
  method ReadServerResponse(io: Stream, leftover: seq<byte>) returns (resp: Option<seq<byte>>, left: seq<byte>)
    modifies io
    ensures resp.Some? ==>
              |resp.value| == 51 && resp.value + left + io.incoming == leftover + old(io.incoming)
    ensures |leftover| <= SERVER_RESP_LEN ==> left == []
    ensures Later(old(io.script), io.script)
    ensures old(Enough(io.incoming, io.script)) ==> Enough(io.incoming, io.script)
    // It gives up only if the bytes are not there, or a read brought none.
    ensures resp.None? ==>
              || |leftover| + |old(io.incoming)| < SERVER_RESP_LEN
              || !AllGive(old(io.script))
              || |old(io.script)| < SERVER_RESP_LEN
  {
    var out := leftover;
    left := [];
    while |out| < SERVER_RESP_LEN
      invariant out + io.incoming == leftover + old(io.incoming)
      invariant |out| <= SERVER_RESP_LEN || out == leftover
      invariant Later(old(io.script), io.script)
      invariant old(Enough(io.incoming, io.script)) ==> Enough(io.incoming, io.script)
      invariant AllGive(old(io.script)) ==> AllGive(io.script)
      invariant |old(io.script)| <= |out| + |io.script|
      decreases SERVER_RESP_LEN - |out|
    {
      var need := SERVER_RESP_LEN - |out|;
      var got := io.Read(if need < 64 then need else 64);
      if !got.Data? {
        return None, left;
      }
      Assoc(out, got.bytes, io.incoming);
      out := out + got.bytes;
    }
    if |out| > SERVER_RESP_LEN {
      Rejoin(out, SERVER_RESP_LEN);
      left := out[SERVER_RESP_LEN..];
      out := out[..SERVER_RESP_LEN];
    } else {
      Empty(out);
    }
    return Some(out), left;
  }

  // ---------- end to end ----------

  predicate NoneEmpty(ps: Payloads) {
    forall i | 0 <= i < |ps| :: ps[i] != []
  }

  /** All writes, cut into payloads. */
  function AllChunks(writes: seq<seq<byte>>): Payloads {
    if writes == [] then [] else AllChunks(Init(writes)) + Chunks(Last(writes))
  }

  function Joined(writes: seq<seq<byte>>): seq<byte> {
    if writes == [] then [] else Joined(Init(writes)) + Last(writes)
  }

  lemma {:induction false} AllChunksWhole(writes: seq<seq<byte>>)
    ensures Plain(AllChunks(writes)) == Joined(writes) && Fit(AllChunks(writes)) && NoneEmpty(AllChunks(writes))
  {
    if writes != [] {
      AllChunksWhole(Init(writes));
      PlainConcat(AllChunks(Init(writes)), Chunks(Last(writes)));
      ChunksWhole(Last(writes));
    }
  }

  lemma OneMoreWrite(aead: Aead, writes: seq<seq<byte>>, i: nat)
    requires i < |writes|
    ensures var sent := AllChunks(writes[..i]);
            && |AllChunks(writes[..i + 1])| == |sent| + |Chunks(writes[i])|
            && Wire(aead, 0, AllChunks(writes[..i + 1])) == Wire(aead, 0, sent) + Wire(aead, |sent|, Chunks(writes[i]))
  {
    assert Init(writes[..i + 1]) == writes[..i] && Last(writes[..i + 1]) == writes[i];
    WireConcat(aead, 0, AllChunks(writes[..i]), Chunks(writes[i]));
  }

  /** The wire of any sequence of writes that all succeed. */
  method SendAll(aead: Aead, writes: seq<seq<byte>>) returns (wire: seq<byte>)
    ensures wire == Wire(aead, 0, AllChunks(writes))
  {
    var sender := new Sender(aead);
    for i := 0 to |writes|
      invariant sender.wire == Wire(aead, 0, AllChunks(writes[..i]))
      invariant sender.nonce == |AllChunks(writes[..i])|
    {
      OneMoreWrite(aead, writes, i);
      var ok := sender.Write(writes[i], None);
    }
    assert writes[..|writes|] == writes;
    return sender.wire;
  }

  predicate AllPositive(sizes: seq<nat>) {
    forall i | 0 <= i < |sizes| :: sizes[i] > 0
  }

  /** The stream hands over all its bytes and the reader asks often enough for some. */
  predicate Patient(incoming: seq<byte>, script: seq<Choice>, sizes: seq<nat>, bytes: nat) {
    Enough(incoming, script) && Break !in script && AllPositive(sizes) && |sizes| > bytes + |script|
  }

  /** Reads of any sizes, until one ends or fails; `last` is what the last of them met. */
  method ReadAll(rx: Receiver, sizes: seq<nat>) returns (got: seq<byte>, last: Outcome)
    requires rx.InStep() && rx.read == []
    modifies rx, rx.inner
    ensures got <= Plain(rx.sent) && !last.Corrupt?
    ensures last.Io? ==> Break in old(rx.inner.script)
    ensures (last.Ended? || (last.Retry? && |sizes| > 0)) && rx.inner.incoming == [] && rx.missing == 0
            ==> got == Plain(rx.sent)
    ensures last.Ended? ==> rx.inner.incoming == []
    ensures rx.missing == 0 && NoneEmpty(rx.sent)
            && old(Patient(rx.inner.incoming, rx.inner.script, sizes, |Plain(rx.sent)|)) ==>
              got == Plain(rx.sent)
  {
    got, last := [], Retry;
    ghost var was := rx.inner.script;
    ghost var sure := rx.missing == 0 && NoneEmpty(rx.sent) && Patient(rx.inner.incoming, was, sizes, |Plain(rx.sent)|);
    for i := 0 to |sizes|
      invariant rx.InStep() && got == rx.read && (last.Retry? || last.Bytes?)
      invariant last.Retry? && i > 0 && rx.inner.incoming == [] && rx.missing == 0 ==> got == Plain(rx.sent)
      invariant Later(was, rx.inner.script)
      invariant sure ==> Enough(rx.inner.incoming, rx.inner.script)
      invariant sure ==> i <= |got| + |was| - |rx.inner.script| || got == Plain(rx.sent)
    {
      ReadIsPrefix(rx.read, rx.rxPlain, rx.sent, rx.nonce);
      last := rx.Read(sizes[i]);
      ReadIsPrefix(rx.read, rx.rxPlain, rx.sent, rx.nonce);
      if last.Bytes? {
        got := got + last.bytes;
      } else if !last.Retry? {
        break;
      }
    }
    ReadIsPrefix(rx.read, rx.rxPlain, rx.sent, rx.nonce);
  }

  /**
  One direction of a connection from the handshake response on. The peer sends
  the response and then records for `writes`; only the first `arrive` bytes of
  it get through, `early` of them together with the upgrade, the rest in any
  pieces with any timeouts; the reader asks for any sizes. What it gets is
  always a prefix of what was written and never a corrupt record. Once everything
  arrived it is all of it, when the end is reported and also when a patient
  reader meets nothing but timeouts; the handshake fails only for a cause.
  */
  method Converse(aead: Aead, response: seq<byte>, writes: seq<seq<byte>>, arrive: nat, early: nat,
                  script: seq<Choice>, sizes: seq<nat>)
    returns (handshake: Option<seq<byte>>, got: seq<byte>, last: Outcome)
    requires Correct(aead) && |response| == 51
    ensures handshake.Some? ==> handshake.value == response
    ensures handshake.None? ==> arrive < 51 || !AllGive(script) || |script| < 51
    ensures got <= Joined(writes)
    ensures !last.Corrupt? && (last.Io? ==> Break in script)
    ensures last.Ended? && arrive >= |Sending(aead, response, writes)| ==> got == Joined(writes)
    ensures handshake.Some? && arrive >= |Sending(aead, response, writes)| ==>
              Patient(Sending(aead, response, writes), script, sizes, |Joined(writes)|) ==> got == Joined(writes)
  {
    ghost var sent := AllChunks(writes);
    AllChunksWhole(writes);
    var wire := SendAll(aead, writes);
    var all := response + wire;
    var n := if arrive < |all| then arrive else |all|;
    var delivered := all[..n];
    var k := if early < n then early else n;
    var io := new Stream(delivered[k..], script);
    Rejoin(delivered, k);
    got, last := [], Retry;
    var left;
    handshake, left := ReadServerResponse(io, delivered[..k]);
    if handshake.None? {
      return;
    }
    SplitOffResponse(response, wire, n, handshake.value, left + io.incoming);
    Assoc(handshake.value, left, io.incoming);
    var rx := new Receiver(aead, io, left, sent);
    got, last := ReadAll(rx, sizes);
  }

  /** Everything the peer sends. */
  function Sending(aead: Aead, response: seq<byte>, writes: seq<seq<byte>>): seq<byte> {
    response + Wire(aead, 0, AllChunks(writes))
  }

  lemma SplitOffResponse(response: seq<byte>, wire: seq<byte>, n: nat, head: seq<byte>, tail: seq<byte>)
    requires |response| == |head| == SERVER_RESP_LEN && n <= |response + wire|
    requires head + tail == (response + wire)[..n]
    ensures head == response && tail <= wire && |tail| == n - SERVER_RESP_LEN
  {
    assert head == (head + tail)[..SERVER_RESP_LEN];
    assert tail == (head + tail)[SERVER_RESP_LEN..];
  }

  lemma ReadIsPrefix(read: seq<byte>, ready: seq<byte>, sent: Payloads, i: nat)
    requires i <= |sent| && read + ready == Plain(sent[..i])
    ensures read <= Plain(sent)
  {
    Rejoin(sent, i);
    PlainConcat(sent[..i], sent[i..]);
    assert read <= read + ready;
  }
}
