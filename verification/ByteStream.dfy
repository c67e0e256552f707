/**
A blocking byte stream with a read timeout, as its reader meets it.

The bytes on their way to the reader are known; how they are cut into chunks,
where reads time out, and when the stream ends or breaks is decided by a script
that the environment chooses. Once the script is used up every read times out.
*/
module ByteStream {
  import opened Common

  datatype Choice = Chunk(size: nat) | TimeOut | Close | Break

  datatype ReadResult = Data(bytes: seq<byte>) | WouldBlock | Eof | IoError

  /** A choice that hands over bytes when there are any. */
  predicate Gives(c: Choice) {
    c.Chunk? || c.Close?
  }

  /** How many reads of a script hand over bytes as long as there are any. */
  function Deliveries(script: seq<Choice>): nat {
    if script == [] then 0 else Deliveries(script[1..]) + if Gives(script[0]) then 1 else 0
  }

  /** The script still has a delivery for each byte on its way. */
  predicate Enough(incoming: seq<byte>, script: seq<Choice>) {
    incoming == [] || |incoming| <= Deliveries(script)
  }

  predicate AllGive(script: seq<Choice>) {
    forall i | 0 <= i < |script| :: Gives(script[i])
  }

  /** A script some reads later: no longer, and with no new choices. */
  predicate Later(was: seq<Choice>, now: seq<Choice>) {
    |now| <= |was| && forall c | c in now :: c in was
  }

  /** Every delivery used up since has brought at least one byte, as long as there were any. */
  predicate Delivered(was: seq<byte>, script: seq<Choice>, now: seq<byte>, left: seq<Choice>) {
    now == [] || |now| + Deliveries(script) <= |was| + Deliveries(left)
  }

  class Stream {
    var incoming: seq<byte>
    var script: seq<Choice>

    constructor (incoming: seq<byte>, script: seq<Choice>)
      ensures this.incoming == incoming && this.script == script
    {
      this.incoming, this.script := incoming, script;
    }

    /** Read at most `max` bytes. The end is reported only once everything has been read. */
    method Read(max: nat) returns (r: ReadResult)
      requires max > 0
      modifies this
      ensures r.Data? ==> 0 < |r.bytes| <= max && old(incoming) == r.bytes + incoming
      ensures !r.Data? ==> incoming == old(incoming)
      ensures r.Eof? ==> incoming == []
      ensures if old(script) == [] then script == [] && r.WouldBlock? else script == old(script)[1..]
      // What the environment chose is what the reader meets.
      ensures old(script) != [] ==>
                && (r.IoError? <==> old(script)[0].Break?)
                && (r.Data? <==> Gives(old(script)[0]) && old(incoming) != [])
                && (r.Eof? <==> old(script)[0].Close? && old(incoming) == [])
      ensures old(Enough(incoming, script)) ==> Enough(incoming, script)
      ensures Later(old(script), script) && Delivered(old(incoming), old(script), incoming, script)
    {
      if script == [] {
        return WouldBlock;
      }
      var choice := script[0];
      script := script[1..];
      match choice {
        case TimeOut =>
          return WouldBlock;
        case Break =>
          return IoError;
        case Close =>
          if incoming == [] {
            return Eof;
          }
        case Chunk(_) =>
          if incoming == [] {
            return WouldBlock;
          }
      }
      var size := if choice.Chunk? && choice.size > 0 then choice.size else max;
      var n := if size < max then size else max;
      n := if n < |incoming| then n else |incoming|;
      r := Data(incoming[..n]);
      incoming := incoming[n..];
    }
  }
}
