/** The console stream (api/client/kubeclient/websocket.go): a byte stream over WebSocket messages
    (section 5.6 of RFC 6455; close code 1000 is in section 7.4.1). */
module Stream {
  import opened Types

  type Byte = b: int | 0 <= b < 256

  datatype Error = EOF | Closed(code: int) | OtherError(id: nat)

  const NORMAL_CLOSURE := 1000

  /** convert: a normal closure is the end of the stream. */
  function Convert(err: Option<Error>): Option<Error> {
    if err == Some(Closed(NORMAL_CLOSURE)) then Some(EOF) else err
  }

  // ---------------------------------------------------------------- the library's side

  /** How an io.Reader answers one call: at most `n` bytes (one at least), and whether the end is reported together
      with the last bytes or by a call of its own. */
  datatype Split = Split(n: nat, endTogether: bool)

  /** NextReader only returns text and binary messages; `end` is what follows the payload: EOF, or an error that cuts
      the message short. */
  datatype MessageKind = Binary | Text
  datatype Message = Message(kind: MessageKind, payload: seq<Byte>, end: Error, splits: seq<Split>)

  /** Any io.Reader over some bytes. */
  class ByteReader {
    var rest: seq<Byte>
    const end: Error
    var splits: seq<Split>

    constructor (bytes: seq<Byte>, end: Error, splits: seq<Split>)
      ensures rest == bytes && this.end == end
    {
      rest, this.end, this.splits := bytes, end, splits;
    }

    method Read(p: array<Byte>) returns (n: nat, err: Option<Error>)
      modifies this, p
      ensures n <= p.Length && p[..n] + rest == old(rest)
      ensures err.Some? ==> err.value == end && rest == []
      ensures p.Length > 0 && err.None? ==> n > 0
    {
      var split := if splits == [] then Split(p.Length, false) else splits[0];
      splits := if splits == [] then [] else splits[1..];
      if p.Length == 0 {
        return 0, None;
      }
      if rest == [] {
        return 0, Some(end);
      }
      n := if split.n == 0 then 1 else split.n;
      n := if n > p.Length then p.Length else n;
      n := if n > |rest| then |rest| else n;
      forall i | 0 <= i < n {
        p[i] := rest[i];
      }
      assert p[..n] == rest[..n];
      rest := rest[n..];
      err := if rest == [] && split.endTogether then Some(end) else None;
    }
  }

  /** The bytes that binary messages carry, in order. */
  function BinaryBytes(messages: seq<Message>): seq<Byte> {
    if messages == [] then []
    else (if messages[0].kind == Binary then messages[0].payload else []) + BinaryBytes(messages[1..])
  }

  lemma {:induction false} BinaryBytesConcat(a: seq<Message>, b: seq<Message>)
    ensures BinaryBytes(a + b) == BinaryBytes(a) + BinaryBytes(b)
  {
    if a == [] {
      assert a + b == b;
    } else {
      assert (a + b)[1..] == a[1..] + b;
      BinaryBytesConcat(a[1..], b);
    }
  }

  /** Errors of a connection stick: a message cut short is the last one, and NextReader repeats its error. */
  predicate WellEnded(messages: seq<Message>, failure: Error) {
    forall i :: 0 <= i < |messages| && messages[i].end != EOF ==> i == |messages| - 1 && messages[i].end == failure
  }

  /** What becomes of one message: it is sent; NextWriter refuses it; or only `n` bytes of it go out before the
      connection breaks, which Write reports, or only Close. */
  datatype WriteOutcome = Accept | Refuse(error: Error) | Cut(n: nat, reported: bool, error: Error)

  /** How the peer sees the end of a message that was cut. */
  const CUT := OtherError(0)

  class Connection {
    var incoming: seq<Message>
    const failure: Error
    var sent: seq<Message>
    var outcomes: seq<WriteOutcome>
    var broken: Option<Error>

    constructor (incoming: seq<Message>, failure: Error, outcomes: seq<WriteOutcome>)
      requires WellEnded(incoming, failure)
      ensures this.incoming == incoming && this.failure == failure && sent == [] && this.outcomes == outcomes
      ensures broken == None
    {
      this.incoming, this.failure, this.sent, this.outcomes := incoming, failure, [], outcomes;
      this.broken := None;
    }

    method NextReader() returns (kind: MessageKind, reader: ByteReader?, err: Option<Error>)
      modifies this
      ensures sent == old(sent) && broken == old(broken)
      ensures old(incoming) == [] ==> incoming == [] && err == Some(failure)
      ensures old(incoming) != [] ==>
        && incoming == old(incoming)[1..] && err.None? && kind == old(incoming)[0].kind
        && reader != null && fresh(reader)
        && reader.rest == old(incoming)[0].payload && reader.end == old(incoming)[0].end
    {
      if incoming == [] {
        return Binary, null, Some(failure);
      }
      var m := incoming[0];
      incoming := incoming[1..];
      reader := new ByteReader(m.payload, m.end, m.splits);
      return m.kind, reader, None;
    }

    /** NextWriter, Write and Close for one message; an error of Close is not seen. Write errors stick. `arrived` is
        how many bytes went out. */
    method Send(bytes: seq<Byte>) returns (started: bool, n: nat, err: Option<Error>, ghost arrived: nat)
      modifies this
      ensures incoming == old(incoming) && arrived <= |bytes|
      ensures old(broken).Some? ==> !started && err == broken == old(broken)
      ensures !started ==> sent == old(sent) && arrived == n == 0 && err.Some? && broken == err
      ensures started ==>
        && sent == old(sent) + [Message(Binary, bytes[..arrived], if broken.None? then EOF else CUT, [])]
        && n == (if err.Some? then arrived else |bytes|) && (err.Some? ==> broken == err)
        && (broken.None? ==> err.None? && arrived == |bytes|)
      ensures old(broken).None? && old(outcomes) == [] ==> started && broken.None? && outcomes == []
      ensures old(broken).None? && old(outcomes) != [] ==>
        var outcome := old(outcomes)[0];
        && (outcome.Accept? ==> started && broken.None? && outcomes == old(outcomes)[1..])
        && (outcome.Refuse? ==> !started && err == Some(outcome.error))
        && (outcome.Cut? ==>
              && started && broken == Some(outcome.error) && (err.Some? <==> outcome.reported)
              && arrived == if outcome.n < |bytes| then outcome.n else |bytes|)
    {
      arrived := 0;
      if broken.Some? {
        return false, 0, broken, 0;
      }
      var outcome := if outcomes == [] then Accept else outcomes[0];
      outcomes := if outcomes == [] then [] else outcomes[1..];
      match outcome
      case Refuse(e) =>
        broken := Some(e);
        return false, 0, broken, 0;
      case Accept =>
        assert bytes[..|bytes|] == bytes;
        sent := sent + [Message(Binary, bytes, EOF, [])];
        return true, |bytes|, None, |bytes|;
      case Cut(m, reported, e) =>
        var k := if m < |bytes| then m else |bytes|;
        sent := sent + [Message(Binary, bytes[..k], CUT, [])];
        broken := Some(e);
        if reported {
          return true, k, Some(e), k;
        } else {
          return true, |bytes|, None, k;
        }
    }
  }

  // ---------------------------------------------------------------- binaryWriter

  /** A normal closure that a writer reports as the end of the stream. */
  predicate Hidden(cause: Error, err: Error) {
    cause == Closed(1000) && err == EOF
  }

  class BinaryWriter {
    const conn: Connection

    constructor (conn: Connection)
      ensures this.conn == conn
    {
      this.conn := conn;
    }

    /** One message per call. A call that reports no error has sent all bytes, unless the connection broke before the
        last of them went out and only closing the message shows it: that error is dropped, and the next call fails. */
    method Write(p: seq<Byte>) returns (n: nat, err: Option<Error>, ghost arrived: nat)
      modifies conn
      ensures conn.incoming == old(conn.incoming) && arrived <= |p|
      ensures old(conn.broken).Some? ==>
        err.Some? && conn.broken == old(conn.broken) && conn.sent == old(conn.sent) && arrived == 0
      ensures err.None? ==> n == |p|
      ensures err.Some? ==> n == arrived && conn.broken.Some?
      ensures err.Some? ==> conn.broken == err || Hidden(conn.broken.value, err.value)
      ensures err.Some? && conn.sent == old(conn.sent) ==> err != Some(Closed(1000))
      ensures err.Some? && conn.sent != old(conn.sent) ==> conn.broken == err
      ensures conn.broken.None? ==> err.None? && arrived == |p|
      ensures (conn.sent == old(conn.sent) && arrived == 0)
              || conn.sent == old(conn.sent)
                              + [Message(Binary, p[..arrived], if conn.broken.None? then EOF else CUT, [])]
      ensures old(conn.broken).None? && old(conn.outcomes) == [] ==> conn.broken.None? && conn.outcomes == []
      ensures conn.broken.None? ==> conn.sent != old(conn.sent)
      ensures err.None? && arrived < |p| <==>
        && old(conn.broken).None? && old(conn.outcomes) != []
        && var outcome := old(conn.outcomes)[0];
           outcome.Cut? && !outcome.reported && outcome.n < |p|
      ensures old(conn.broken).None? && old(conn.outcomes) != [] && old(conn.outcomes)[0].Cut? ==>
        arrived <= old(conn.outcomes)[0].n && (err.Some? <==> old(conn.outcomes)[0].reported)
    {
      var started;
      started, n, err, arrived := conn.Send(p);
      if !started {
        return 0, Convert(err), 0;
      }
    }
  }

  /** The loss that nobody hears of: a write that succeeds and delivers nothing. */
  method SilentLoss(bytes: seq<Byte>, error: Error) returns (conn: Connection, n: nat, err: Option<Error>)
    ensures fresh(conn) && err.None? && n == |bytes| && BinaryBytes(conn.sent) == []
  {
    conn := new Connection([], error, [Cut(0, false, error)]);
    var w := new BinaryWriter(conn);
    ghost var arrived;
    n, err, arrived := w.Write(bytes);
    assert bytes[..0] == [];
    assert BinaryBytes([Message(Binary, [], CUT, [])]) == [] + BinaryBytes([]);
    assert [] + [Message(Binary, bytes[..arrived], CUT, [])] == [Message(Binary, [], CUT, [])];
  }

  // ---------------------------------------------------------------- binaryReader

  class BinaryReader {
    const conn: Connection
    var reader: ByteReader?

    constructor (conn: Connection)
      ensures this.conn == conn && reader == null
    {
      this.conn, this.reader := conn, null;
    }

    /** The message being read fits the connection's error, as the messages still to come do. */
    ghost predicate Valid()
      reads this, conn, reader
    {
      && WellEnded(conn.incoming, conn.failure)
      && (reader != null && reader.end != EOF ==> conn.incoming == [] && reader.end == conn.failure)
    }

    /** Bytes that arrived and were not delivered yet. */
    ghost function Pending(): seq<Byte>
      reads this, conn, reader
    {
      (if reader == null then [] else reader.rest) + BinaryBytes(conn.incoming)
    }

    /** NextReader, when no message is open. */
    method Open() returns (msgType: MessageKind, err: Option<Error>)
      requires Valid() && reader == null
      modifies this, conn
      ensures conn.sent == old(conn.sent)
      ensures err.Some? ==> reader == null && conn.incoming == old(conn.incoming) == [] && err == Some(conn.failure)
      ensures err.None? ==> reader != null && fresh(reader) && |conn.incoming| < |old(conn.incoming)| && Valid()
      ensures err.None? ==> old(Pending()) == if msgType == Binary then Pending() else BinaryBytes(conn.incoming)
    {
      ghost var before := conn.incoming;
      var next;
      msgType, next, err := conn.NextReader();
      reader := next;
      if err.Some? {
        reader := null;
      } else {
        assert forall i :: 0 <= i < |conn.incoming| ==> conn.incoming[i] == before[i + 1];
      }
    }

    /** The open message's own Read; it is closed as soon as it reports anything. */
    method ReadOpen(p: array<Byte>) returns (n: nat, err: Option<Error>)
      requires Valid() && reader != null
      modifies this, reader, p
      ensures Valid() && (reader == null || reader == old(reader))
      ensures n <= p.Length && p[..n] + Pending() == old(Pending())
      ensures err.None? ==> reader == old(reader) && (p.Length > 0 ==> n > 0)
      ensures err.Some? ==> reader == null && (err.value == EOF || (conn.incoming == [] && err.value == conn.failure))
    {
      ghost var more := BinaryBytes(conn.incoming);
      ghost var before := reader.rest;
      n, err := reader.Read(p);
      assert p[..n] + (reader.rest + more) == before + more;
      if err.Some? {
        assert p[..n] + ([] + more) == before + more;
        reader := null;
      }
    }

    /** Read never loses, repeats or reorders a byte, whatever the messages, their splits and the buffer; it makes
        progress or reports the end: EOF after a normal closure (close code 1000) and after an EOF, and the connection's
        own error after any other end. */
    method Read(p: array<Byte>) returns (n: nat, err: Option<Error>)
      requires Valid()
      modifies this, conn, reader, p
      ensures Valid() && conn.sent == old(conn.sent) && (reader == null || reader == old(reader) || fresh(reader))
      ensures n <= p.Length && p[..n] + Pending() == old(Pending())
      ensures p.Length > 0 && err.None? ==> n > 0
      ensures err.Some? ==> Pending() == []
      ensures err == Some(EOF) ==> conn.failure == EOF || conn.failure == Closed(1000)
      ensures err.Some? && err != Some(EOF) ==> conn.failure != Closed(1000) && err == Some(conn.failure)
    {
      while true
        invariant Valid() && conn.sent == old(conn.sent) && Pending() == old(Pending())
        invariant reader == null || reader == old(reader) || fresh(reader)
        decreases |conn.incoming|, if reader == null then 0 else 1
      {
        var msgType := Binary;
        if reader == null {
          msgType, err := Open();
          if err.Some? {
            return 0, Convert(err);
          }
        }
        match msgType {
          case Binary =>
            n, err := ReadOpen(p);
            if err == Some(EOF) {
              if n == 0 {
                continue;
              } else {
                return n, None;
              }
            }
            return n, Convert(err);
          case Text =>
            reader := null;
        }
      }
    }
  }

  // ---------------------------------------------------------------- io.Copy in both directions

  class Sink {
    var data: seq<Byte>

    constructor ()
      ensures data == []
    {
      data := [];
    }

    method Write(bytes: seq<Byte>)
      modifies this
      ensures data == old(data) + bytes
    {
      data := data + bytes;
    }
  }

  /** CopyFrom: the sink receives exactly the binary payloads, in order; a normal closure is no error, and every other
      one is reported. */
  method CopyFrom(dst: Sink, src: Connection, size: nat) returns (written: nat, err: Option<Error>)
    requires size > 0 && WellEnded(src.incoming, src.failure)
    modifies dst, src
    ensures dst.data == old(dst.data) + BinaryBytes(old(src.incoming))
    ensures written == |BinaryBytes(old(src.incoming))|
    ensures err.None? <==> src.failure == EOF || src.failure == Closed(1000)
    ensures err.Some? ==> err == Some(src.failure)
    ensures src.sent == old(src.sent)
  {
    var r := new BinaryReader(src);
    var buf := new Byte[size];
    written := 0;
    while true
      invariant r.Valid() && r.conn == src && src.sent == old(src.sent)
      invariant fresh(r) && fresh(buf) && (r.reader == null || fresh(r.reader))
      invariant dst.data + r.Pending() == old(dst.data) + BinaryBytes(old(src.incoming))
      invariant written + |r.Pending()| == |BinaryBytes(old(src.incoming))|
      decreases |r.Pending()|
    {
      var n, readErr := r.Read(buf);
      if n > 0 {
        dst.Write(buf[..n]);
        written := written + n;
      }
      if readErr.Some? {
        err := if readErr.value == EOF then None else readErr;
        return;
      }
    }
  }

  ghost predicate AllBinary(messages: seq<Message>) {
    forall i :: 0 <= i < |messages| ==>
      messages[i].kind == Binary && messages[i].payload != [] && messages[i].end == EOF
  }

  lemma SentBytes(before: seq<Message>, after: seq<Message>, base: nat, p: seq<Byte>, end: Error)
    requires base <= |before| && after == before + [Message(Binary, p, end, [])]
    ensures BinaryBytes(after[base..]) == BinaryBytes(before[base..]) + p
    ensures AllBinary(before[base..]) && p != [] && end == EOF ==> AllBinary(after[base..])
  {
    var last := [Message(Binary, p, end, [])];
    assert after[base..] == before[base..] + last;
    BinaryBytesConcat(before[base..], last);
    assert BinaryBytes(last) == p + BinaryBytes(last[1..]);
  }

  /** The source is what went out, then what was lost, then what is still to be read. */
  ghost predicate Flows(whole: seq<Byte>, out: seq<Byte>, lost: seq<Byte>, rest: seq<Byte>) {
    out + lost + rest == whole
  }

  lemma FlowStep(whole: seq<Byte>, out: seq<Byte>, chunk: seq<Byte>, rest: seq<Byte>, arrived: nat)
    requires Flows(whole, out, [], chunk + rest) && arrived <= |chunk|
    ensures Flows(whole, out + chunk[..arrived], chunk[arrived..], rest) && out + chunk[..arrived] <= whole
  {
    assert chunk == chunk[..arrived] + chunk[arrived..];
    assert whole == out + chunk[..arrived] + (chunk[arrived..] + rest);
  }

  lemma FlowPrefix(whole: seq<Byte>, out: seq<Byte>, lost: seq<Byte>, rest: seq<Byte>)
    requires Flows(whole, out, lost, rest)
    ensures out <= whole && |whole| == |out| + |lost| + |rest|
  {
    assert whole == out + (lost + rest);
  }

  /** One buffer of io.Copy, seen from the messages sent since `base`. */
  method WriteChunk(w: BinaryWriter, chunk: seq<Byte>, ghost base: nat)
    returns (nw: nat, err: Option<Error>, ghost arrived: nat)
    requires chunk != [] && base <= |w.conn.sent|
    modifies w.conn
    ensures w.conn.incoming == old(w.conn.incoming) && arrived <= |chunk|
    ensures base <= |w.conn.sent| && w.conn.sent[..base] == old(w.conn.sent)[..base]
    ensures BinaryBytes(w.conn.sent[base..]) == BinaryBytes(old(w.conn.sent)[base..]) + chunk[..arrived]
    ensures w.conn.broken.None? && AllBinary(old(w.conn.sent)[base..]) ==> AllBinary(w.conn.sent[base..])
    ensures old(w.conn.broken).Some? ==> err.Some? && arrived == 0 && w.conn.broken == old(w.conn.broken)
    ensures err.Some? ==> w.conn.broken.Some? && (w.conn.broken == err || Hidden(w.conn.broken.value, err.value))
    ensures nw == if err.Some? then arrived else |chunk|
    ensures w.conn.broken.None? ==> err.None? && arrived == |chunk|
    ensures old(w.conn.broken).None? && old(w.conn.outcomes) == [] ==> w.conn.broken.None? && w.conn.outcomes == []
  {
    ghost var before := w.conn.sent;
    nw, err, arrived := w.Write(chunk);
    if w.conn.sent != before {
      SentBytes(before, w.conn.sent, base, chunk[..arrived], if w.conn.broken.None? then EOF else CUT);
    } else {
      assert BinaryBytes(before[base..]) + chunk[..arrived] == BinaryBytes(before[base..]);
    }
  }

  /** CopyTo: what goes out is a prefix of the source, in non-empty binary messages unless the connection breaks. When
      no error is returned the whole source was read and counted, and all of it went out unless the connection broke
      under the last buffer, which alone can then be missing. */
  method CopyTo(dst: Connection, src: ByteReader, size: nat) returns (written: nat, err: Option<Error>)
    requires size > 0
    modifies dst, src
    ensures old(dst.sent) <= dst.sent && dst.incoming == old(dst.incoming)
    ensures BinaryBytes(dst.sent[|old(dst.sent)|..]) <= old(src.rest)
    ensures |BinaryBytes(dst.sent[|old(dst.sent)|..])| <= written <= |BinaryBytes(dst.sent[|old(dst.sent)|..])| + size
    ensures dst.broken.None? ==> AllBinary(dst.sent[|old(dst.sent)|..])
    ensures err.None? ==> src.end == EOF && written == |old(src.rest)|
    ensures dst.broken.None? ==> BinaryBytes(dst.sent[|old(dst.sent)|..]) == old(src.rest) && written == |old(src.rest)|
    ensures dst.broken.None? ==> err == if src.end == EOF then None else Some(src.end)
    ensures err.Some? ==>
      || (src.end != EOF && err == Some(src.end))
      || (dst.broken.Some? && (dst.broken == err || Hidden(dst.broken.value, err.value)))
    ensures old(dst.outcomes) == [] && old(dst.broken).None? && src.end == EOF ==> err.None? && dst.broken.None?
  {
    var w := new BinaryWriter(dst);
    var buf := new Byte[size];
    written := 0;
    ghost var base, whole := |dst.sent|, src.rest;
    ghost var out, lost: seq<Byte> := [], [];
    while true
      invariant fresh(buf) && w.conn == dst && dst.incoming == old(dst.incoming)
      invariant base <= |dst.sent| && dst.sent[..base] == old(dst.sent)
      invariant out == BinaryBytes(dst.sent[base..]) && Flows(whole, out, lost, src.rest)
      invariant dst.broken.None? ==> AllBinary(dst.sent[base..]) && lost == []
      invariant |lost| <= size && written == |out| + |lost|
      invariant old(dst.outcomes) == [] && old(dst.broken).None? ==> dst.outcomes == [] && dst.broken.None?
      decreases |src.rest|
    {
      ghost var wasBroken := dst.broken.Some?;
      FlowPrefix(whole, out, lost, src.rest);
      var n, readErr := src.Read(buf);
      if n > 0 {
        ghost var arrived;
        var nw, writeErr;
        var chunk := buf[..n];
        nw, writeErr, arrived := WriteChunk(w, chunk, base);
        if wasBroken {
          assert out + chunk[..arrived] == out;
        } else {
          FlowStep(whole, out, chunk, src.rest, arrived);
          out, lost := out + chunk[..arrived], chunk[arrived..];
        }
        written := written + nw;
        if writeErr.Some? {
          return written, writeErr;
        }
      }
      if readErr.Some? {
        FlowPrefix(whole, out, lost, src.rest);
        err := if readErr.value == EOF then None else readErr;
        return;
      }
    }
  }

  // ---------------------------------------------------------------- both ends together

  /** The same messages as the other end's reader meets them: split in any way, with text messages in between. */
  ghost predicate Transported(sent: seq<Message>, received: seq<Message>) {
    if received == [] then sent == []
    else if received[0].kind == Text then received[0].end == EOF && Transported(sent, received[1..])
    else
      && sent != [] && received[0].payload == sent[0].payload && received[0].end == EOF
      && Transported(sent[1..], received[1..])
  }

  lemma {:induction false} TransportKeepsBytes(sent: seq<Message>, received: seq<Message>, failure: Error)
    requires AllBinary(sent) && Transported(sent, received)
    ensures BinaryBytes(received) == BinaryBytes(sent) && WellEnded(received, failure)
  {
    if received != [] {
      if received[0].kind == Text {
        TransportKeepsBytes(sent, received[1..], failure);
      } else {
        assert AllBinary(sent[1..]);
        TransportKeepsBytes(sent[1..], received[1..], failure);
      }
      assert forall i :: 0 < i < |received| ==> received[i] == received[1..][i - 1];
      forall i | 0 <= i < |received|
        ensures received[i].end == EOF || (i == |received| - 1 && received[i].end == failure)
      {
        if i > 0 {
          assert received[i] == received[1..][i - 1];
        }
      }
    }
  }

  /** CopyTo on one end and CopyFrom on the other are the identity on bytes: for every source and its chunking, every
      buffer size at both ends, every split of the messages and every text message in between, after which the
      connection is closed normally. */
  method RoundTrip(src: ByteReader, received: seq<Message>, conn: Connection, sinkSize: nat,
                   sourceSize: nat, sink: Sink)
    returns (err: Option<Error>)
    requires sinkSize > 0 && sourceSize > 0 && src.end == EOF && conn.sent == [] && conn.outcomes == []
    requires conn.broken == None
    requires sink.data == []
    modifies src, conn, sink
    ensures Transported(conn.sent, received) ==> sink.data == old(src.rest) && err.None?
  {
    var written, sendErr := CopyTo(conn, src, sourceSize);
    assert conn.sent[0..] == conn.sent;
    var failure := Closed(1000);
    err := None;
    ghost var arrived := Transported(conn.sent, received);
    if WellEnded(received, failure) {
      var peer := new Connection(received, failure, []);
      var n;
      n, err := CopyFrom(sink, peer, sinkSize);
    }
    if arrived {
      TransportKeepsBytes(conn.sent, received, failure);
    }
  }
}
