/** The two loops of StreamOutput over one reused buffer, proved against StreamSpec. */
module StreamOutput {
  import opened Base
  import opened StreamSpec

  /** ReadAt: fills the front of the buffer and leaves the rest. */
  method ReadAt(file: Bytes, pos: nat, fault: Fault, buffer: array<byte>) returns (n: nat, err: Error)
    requires pos <= |file| && buffer.Length == CHUNK
    modifies buffer
    ensures n == |ReadBytes(file, pos, fault)| && buffer[..n] == ReadBytes(file, pos, fault)
    ensures buffer[n..] == old(buffer[n..])
    ensures err == ReadError(file, pos, fault)
  {
    var data := ReadBytes(file, pos, fault);
    n := 0;
    while n < |data|
      invariant n <= |data| && buffer[..n] == data[..n] && buffer[n..] == old(buffer[n..])
    {
      buffer[n] := data[n];
      n := n + 1;
    }
    err := ReadError(file, pos, fault);
  }

  /** Chunks sent ahead of what a stream still sends. */
  function Before(sent: seq<Bytes>, s: Stream): Stream { s.(sent := sent + s.sent) }

  lemma BeforeDeliver(sent: seq<Bytes>, chunk: Bytes, rest: Stream)
    ensures Before(sent, Deliver(chunk, rest)) == Before(if chunk == [] then sent else sent + [chunk], rest)
  {
    if chunk != [] {
      assert sent + ([chunk] + rest.sent) == sent + [chunk] + rest.sent;
    }
  }

  /** The branch for a job that has ended, as written or with its error test repaired. */
  method StreamFinished(log: Bytes, turns: seq<Turn>, repaired: bool) returns (s: Stream)
    ensures s == Finished(log, 0, turns, repaired)
  {
    var buffer := new byte[CHUNK];
    var file, currPos, sent := log, 0, [];
    var i := 0;
    while i < |turns|
      invariant i <= |turns| && currPos <= |file|
      invariant Finished(log, 0, turns, repaired) == Before(sent, Finished(file, currPos, turns[i..], repaired))
    {
      var t := turns[i];
      assert turns[i..][0] == t && turns[i..][1..] == turns[i + 1..];
      if t.cancelled {
        return Stream(Canceled, sent, file, currPos, []);
      }
      file := file + t.appended;
      ghost var pos := currPos;
      var bytesread, err := ReadAt(file, currPos, t.fault, buffer);
      BeforeDeliver(sent, buffer[..bytesread], AfterRead(file, pos + bytesread, err, turns[i + 1..], repaired));
      if bytesread > 0 {
        currPos := currPos + bytesread;
        if !t.sendOk {
          return Stream(SendFailed(err.NoError?), sent, file, currPos - bytesread, buffer[..bytesread]);
        }
        sent := sent + [buffer[..bytesread]];
      }
      if err.Eof? {
        return Stream(Complete, sent, file, currPos, []);
      }
      if err.NoError? && !repaired {
        return Stream(NilError, sent, file, currPos, []);
      }
      if err.OtherError? && repaired {
        return Stream(ReadFailed, sent, file, currPos, []);
      }
      i := i + 1;
    }
    s := Stream(StillStreaming, sent, file, currPos, []);
  }

  /** The inner loop of the other branch: read until there are bytes or no watcher is at work. */
  method AwaitBytes(log: Bytes, currPos: nat, err0: Error, wakes: seq<Wake>, buffer: array<byte>)
    returns (left: bool, file: Bytes, bytesread: nat, err: Error)
    requires currPos <= |log| && buffer.Length == CHUNK
    modifies buffer
    ensures bytesread <= CHUNK
    ensures Gate(left, file, buffer[..bytesread], err) == Await(log, currPos, err0, wakes)
  {
    file, bytesread, err := log, 0, err0;
    var i := 0;
    while bytesread == 0 && i < |wakes|
      invariant i <= |wakes| && bytesread <= CHUNK && currPos <= |file|
      invariant Await(log, currPos, err0, wakes) ==
                if bytesread == 0 then Await(file, currPos, err, wakes[i..])
                else Gate(true, file, buffer[..bytesread], err)
    {
      assert wakes[i..][1..] == wakes[i + 1..];
      if wakes[i].NoWatcher? {
        return true, file, bytesread, err;
      }
      file := file + wakes[i].appended;
      bytesread, err := ReadAt(file, currPos, wakes[i].fault, buffer);
      i := i + 1;
    }
    left := bytesread != 0;
  }

  /** The branch for a job that was still running. */
  method StreamLive(log: Bytes, turns: seq<LiveTurn>) returns (s: Stream)
    ensures s == Live(log, 0, NoError, turns)
  {
    var buffer := new byte[CHUNK];
    var file, currPos, err, sent := log, 0, NoError, [];
    var i := 0;
    while i < |turns|
      invariant i <= |turns| && currPos <= |file|
      invariant Live(log, 0, NoError, turns) == Before(sent, Live(file, currPos, err, turns[i..]))
    {
      var t := turns[i];
      assert turns[i..][0] == t && turns[i..][1..] == turns[i + 1..];
      if t.cancelled {
        return Stream(Canceled, sent, file, currPos, []);
      }
      AwaitReads(file, currPos, err, t.wakes);
      var left, bytesread;
      left, file, bytesread, err := AwaitBytes(file, currPos, err, t.wakes, buffer);
      BeforeDeliver(sent, buffer[..bytesread], Live(file, currPos + bytesread, err, turns[i + 1..]));
      if !left {
        return Stream(StillStreaming, sent, file, currPos, buffer[..bytesread]);
      }
      if err.OtherError? {
        return Stream(ReadFailed, sent, file, currPos, buffer[..bytesread]);
      }
      if err.Eof? && t.watcherGone {
        return Stream(Complete, sent, file, currPos, buffer[..bytesread]);
      }
      if bytesread > 0 {
        currPos := currPos + bytesread;
        if !t.sendOk {
          return Stream(SendFailed(false), sent, file, currPos - bytesread, buffer[..bytesread]);
        }
        sent := sent + [buffer[..bytesread]];
      }
      i := i + 1;
    }
    s := Stream(StillStreaming, sent, file, currPos, []);
  }
}
