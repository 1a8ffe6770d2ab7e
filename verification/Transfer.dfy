/**
 The byte loops: `copyFile`, `sendALL`, `sendFileContents` and `receiveFileContents`.
 Reads are full until the end of the file, sends and receives move any positive
 number of bytes.
 */
module Transfer {
  import opened Wrappers

  const MAX_BUFF_SIZE: nat := 2000

  newtype byte = x: int | 0 <= x < 256
  type Bytes = seq<byte>

  function Min(a: nat, b: nat): nat { if a < b then a else b }

  /** What one `fread` of a full buffer returns at `off`. */
  function ChunkAt(content: Bytes, off: nat): (chunk: Bytes)
    ensures |chunk| <= MAX_BUFF_SIZE
    ensures off <= |content| ==> off + |chunk| <= |content| && chunk == content[off..off + |chunk|]
    ensures off <= |content| && |chunk| < MAX_BUFF_SIZE ==> off + |chunk| == |content|
  {
    if off <= |content| then content[off..off + Min(MAX_BUFF_SIZE, |content| - off)] else []
  }

  lemma ChunkExtends(content: Bytes, off: nat)
    requires off <= |content|
    ensures content[..off] + ChunkAt(content, off) == content[..off + |ChunkAt(content, off)|]
  {
    hide ChunkAt;
    var chunk := ChunkAt(content, off);
    assert content[..off] + chunk == content[..off + |chunk|];
  }

  /** A file open for reading: `fread` raises the end-of-file flag only on a short read. */
  class InputFile {
    const contents: Bytes
    var pos: nat
    var eof: bool

    ghost predicate Valid()
      reads this
    {
      pos <= |contents|
    }

    constructor (contents: Bytes)
      ensures this.contents == contents && pos == 0 && !eof
    {
      this.contents, pos, eof := contents, 0, false;
    }

    method Fread(buffer: array<byte>) returns (n: nat)
      requires Valid()
      modifies this, buffer
      ensures Valid() && n == Min(buffer.Length, |contents| - old(pos)) && pos == old(pos) + n
      ensures buffer[..n] == contents[old(pos)..pos]
      ensures eof <==> old(eof) || n < buffer.Length
    {
      n := Min(buffer.Length, |contents| - pos);
      var start := pos;
      forall i | 0 <= i < n {
        buffer[i] := contents[start + i];
      }
      pos := pos + n;
      eof := eof || n < buffer.Length;
    }
  }

  /** A file open for writing. */
  class OutputFile {
    var contents: Bytes

    constructor ()
      ensures contents == []
    {
      contents := [];
    }

    method Fwrite(buffer: array<byte>, n: nat) returns (written: nat)
      requires n <= buffer.Length
      modifies this
      ensures contents == old(contents) + buffer[..n] && written == n
    {
      contents := contents + buffer[..n];
      written := n;
    }
  }

  /** One direction of a connection: the bytes sent and not yet received. */
  class Socket {
    var stream: Bytes

    constructor ()
      ensures stream == []
    {
      stream := [];
    }

    /** Sends some of `buffer[from..to]`, at least one byte. */
    method Send(buffer: array<byte>, from: nat, to: nat) returns (n: nat)
      requires from < to <= buffer.Length
      modifies this
      ensures 1 <= n <= to - from && stream == old(stream) + buffer[from..from + n]
    {
      n :| 1 <= n <= to - from;
      stream := stream + buffer[from..from + n];
    }

    /** Receives at least one byte and at most a full buffer. */
    method Recv(buffer: array<byte>) returns (n: nat)
      requires stream != [] && buffer.Length > 0
      modifies this, buffer
      ensures 1 <= n <= buffer.Length && n <= |old(stream)|
      ensures buffer[..n] == old(stream)[..n] && stream == old(stream)[n..]
    {
      var most := Min(buffer.Length, |stream|);
      n :| 1 <= n <= most;
      forall i | 0 <= i < n {
        buffer[i] := stream[i];
      }
      stream := stream[n..];
    }
  }

  method CopyFile(source: InputFile?, destination: OutputFile?) returns (ok: bool)
    requires source != null ==> source.Valid() && !source.eof
    modifies source, destination
    ensures ok <==> source != null && destination != null
    ensures ok ==> destination.contents == old(destination.contents) + source.contents[old(source.pos)..]
    ensures ok ==> source.pos == |source.contents|
    ensures !ok && destination != null ==> destination.contents == old(destination.contents)
  {
    if source == null || destination == null {
      return false;
    }
    var buffer := new byte[MAX_BUFF_SIZE];
    while true
      invariant source.Valid() && !source.eof && old(source.pos) <= source.pos
      invariant destination.contents == old(destination.contents) + source.contents[old(source.pos)..source.pos]
      decreases |source.contents| - source.pos
    {
      var fill := source.Fread(buffer);
      var _ := destination.Fwrite(buffer, fill);
      if source.eof {
        break;
      }
    }
    ok := true;
  }

  /** Keeps sending until every byte is on the wire. */
  method SendALL(socket: Socket, data: array<byte>, numBytes: nat) returns (ok: bool)
    requires numBytes <= data.Length
    modifies socket
    ensures ok && socket.stream == old(socket.stream) + data[..numBytes]
  {
    var totalSent := 0;
    while totalSent < numBytes
      invariant 0 <= totalSent <= numBytes
      invariant socket.stream == old(socket.stream) + data[..totalSent]
    {
      var numSent := socket.Send(data, totalSent, numBytes);
      totalSent := totalSent + numSent;
    }
    ok := true;
  }

  /** Reads the file buffer by buffer and sends each one; the announced size is not consulted. */
  method SendFileContents(source: Option<Bytes>, fileSize: int, socket: Socket) returns (ok: bool)
    modifies socket
    ensures ok <==> source.Some?
    ensures socket.stream == old(socket.stream) + if source.Some? then source.value else []
  {
    if source.None? {
      return false;
    }
    var file := new InputFile(source.value);
    var buffer := new byte[MAX_BUFF_SIZE];
    while true
      invariant file.Valid() && !file.eof && fresh(file) && file.contents == source.value
      invariant socket.stream == old(socket.stream) + file.contents[..file.pos]
      decreases |file.contents| - file.pos
    {
      ghost var sent := file.contents[..file.pos];
      var fill := file.Fread(buffer);
      assert file.contents[..file.pos] == sent + buffer[..fill];
      var _ := SendALL(socket, buffer, fill);
      assert socket.stream == old(socket.stream) + (sent + buffer[..fill]);
      if file.eof {
        break;
      }
    }
    ok := true;
  }

  /**
   Receives until at least `fileSize` bytes are written. Nothing received is lost,
   and with a stream of exactly `fileSize` bytes the file is that stream.
   */
  method ReceiveFileContents(fileSize: int, socket: Socket) returns (ok: bool, file: OutputFile)
    requires fileSize <= |socket.stream|
    modifies socket
    ensures ok && fresh(file)
    ensures file.contents + socket.stream == old(socket.stream)
    ensures fileSize <= |file.contents|
    ensures fileSize <= 0 ==> file.contents == []
    ensures 0 <= fileSize == |old(socket.stream)| ==> file.contents == old(socket.stream) && socket.stream == []
  {
    file := new OutputFile();
    var buffer := new byte[MAX_BUFF_SIZE];
    ok := true;
    var remaining := fileSize;
    while remaining > 0
      invariant ok && fresh(file) && fresh(buffer)
      invariant file.contents + socket.stream == old(socket.stream)
      invariant remaining + |file.contents| == fileSize
      invariant fileSize <= 0 ==> file.contents == []
    {
      var received := socket.Recv(buffer);
      var written := file.Fwrite(buffer, received);
      if written != received {
        ok := false;
      }
      remaining := remaining - received;
    }
  }

  /** However sends and receives cut the stream, what arrives is the file. */
  method Relay(source: Bytes) returns (file: OutputFile)
    ensures fresh(file) && file.contents == source
  {
    var socket := new Socket();
    var _ := SendFileContents(Some(source), |source|, socket);
    var _, arrived := ReceiveFileContents(|source|, socket);
    file := arrived;
  }

  // ---------------------------------------------------------------- sender and receiver at once

  /**
   `sendFileContents` and `receiveFileContents` at the two ends of a socket: how far the file
   is read, the part of the buffer not yet sent, the end-of-file flag, what is on the wire,
   what has been written, and the receiver's count of what is still to come.
   */
  datatype Pipe = Pipe(off: nat, buf: Bytes, eof: bool, wire: Bytes, received: Bytes, remaining: int)

  /** The sender reads its next buffer, a partial `send`, or a `recv` of at most a buffer. */
  datatype Move = Read | Push(n: nat) | Pull(n: nat)

  predicate CanMove(p: Pipe, m: Move) {
    match m
    case Read => p.buf == [] && !p.eof
    case Push(n) => 1 <= n <= |p.buf|
    case Pull(n) => p.remaining > 0 && 1 <= n <= |p.wire| && n <= MAX_BUFF_SIZE
  }

  function Moved(source: Bytes, p: Pipe, m: Move): Pipe
    requires CanMove(p, m)
  {
    match m
    case Read =>
      var chunk := ChunkAt(source, p.off);
      p.(off := p.off + |chunk|, buf := chunk, eof := |chunk| < MAX_BUFF_SIZE)
    case Push(n) => p.(buf := p.buf[n..], wire := p.wire + p.buf[..n])
    case Pull(n) => p.(wire := p.wire[n..], received := p.received + p.wire[..n], remaining := p.remaining - n)
  }

  ghost predicate IsTransfer(source: Bytes, pipes: seq<Pipe>, moves: seq<Move>) {
    && |pipes| == |moves| + 1 && pipes[0] == Pipe(0, [], false, [], [], |source|)
    && forall i :: 0 <= i < |moves| ==>
         CanMove(pipes[i], moves[i]) && pipes[i + 1] == Moved(source, pipes[i], moves[i])
  }

  predicate PipeOk(source: Bytes, p: Pipe) {
    && p.off <= |source| && (p.eof ==> p.off == |source|)
    && p.received + p.wire + p.buf == source[..p.off]
    && p.remaining == |source| - |p.received|
  }

  function Left(source: Bytes, p: Pipe): int {
    3 * (|source| - p.off) + 2 * |p.buf| + |p.wire| + if p.eof then 0 else 1
  }

  /**
   However reads, sends and receives cut the file and interleave, no byte is lost, doubled or
   reordered, the transfer ends, and where it can go no further the file has arrived. At any
   moment any part of the buffer may be sent, and any part of the wire be received.
   */
  lemma {:induction false} TransferIsIdentity(source: Bytes, pipes: seq<Pipe>, moves: seq<Move>, i: nat)
    requires IsTransfer(source, pipes, moves) && i <= |moves|
    ensures PipeOk(source, pipes[i])
    ensures i + Left(source, pipes[i]) <= 3 * |source| + 1
    ensures (forall m :: !CanMove(pipes[i], m)) ==>
              pipes[i].eof && pipes[i].received == source && pipes[i].remaining == 0
    ensures forall n: nat :: CanMove(pipes[i], Push(n)) <==> 1 <= n <= |pipes[i].buf|
    ensures forall n: nat :: CanMove(pipes[i], Pull(n)) <==> 1 <= n <= |pipes[i].wire| && n <= 2000
    ensures CanMove(pipes[i], Read) <==> pipes[i].buf == [] && !pipes[i].eof
  {
    hide Moved, PipeOk, Left;
    if i == 0 {
      StartsOk(source);
    } else {
      TransferIsIdentity(source, pipes, moves, i - 1);
      Conserves(source, pipes[i - 1], moves[i - 1]);
    }
    if forall m :: !CanMove(pipes[i], m) {
      StuckIsDone(source, pipes[i]);
    }
    WireIsWanted(source, pipes[i]);
  }

  /** Whatever is on the wire is still wanted by the receiver's count. */
  lemma WireIsWanted(source: Bytes, p: Pipe)
    requires PipeOk(source, p)
    ensures |p.wire| <= p.remaining
  {
    assert |p.received + p.wire + p.buf| == p.off;
  }

  lemma StartsOk(source: Bytes)
    ensures var p := Pipe(0, [], false, [], [], |source|);
      PipeOk(source, p) && Left(source, p) == 3 * |source| + 1
  {
  }

  lemma StuckIsDone(source: Bytes, p: Pipe)
    requires PipeOk(source, p) && forall m :: !CanMove(p, m)
    ensures p.eof && p.received == source && p.remaining == 0
  {
    assert !CanMove(p, Read) && !CanMove(p, Push(1)) && !CanMove(p, Pull(1));
    assert p.received + p.wire + p.buf == p.received + p.wire;
    assert |p.wire| <= p.remaining;
    assert p.received + p.wire == p.received;
    assert source[..p.off] == source;
  }

  lemma Conserves(source: Bytes, p: Pipe, m: Move)
    requires CanMove(p, m) && PipeOk(source, p)
    ensures var q := Moved(source, p, m); PipeOk(source, q) && Left(source, q) < Left(source, p)
  {
    hide ChunkAt;
    match m
    case Read =>
      var chunk := ChunkAt(source, p.off);
      assert p.received + p.wire + p.buf == p.received + p.wire;
      ChunkExtends(source, p.off);
    case Push(n) =>
      assert p.buf == p.buf[..n] + p.buf[n..];
    case Pull(n) =>
      assert p.wire == p.wire[..n] + p.wire[n..];
  }
}
