/** Streaming a job's output as a function of the file and of what each turn of the loop meets. A list
    of turns is a finite prefix of the loop's execution, so what is proved for every list holds at every
    loop head and every exit. */
module StreamSpec {
  import opened Base

  type Bytes = seq<byte>

  const CHUNK: nat := 1024

  datatype Error = NoError | Eof | OtherError

  // What ReadAt meets: nothing unusual, or an error other than end of file after at most k bytes.
  type Fault = Option<nat>

  function Least(a: nat, b: nat): nat { if a < b then a else b }

  /** The bytes ReadAt fills in, and its error: none exactly when the buffer is filled. */
  function ReadBytes(file: Bytes, pos: nat, fault: Fault): (chunk: Bytes)
    requires pos <= |file|
    ensures |chunk| <= CHUNK && pos + |chunk| <= |file| && chunk == file[pos..pos + |chunk|]
    ensures fault.None? ==> (|chunk| < CHUNK ==> pos + |chunk| == |file|)
    ensures fault.Some? ==> |chunk| < CHUNK
  {
    var want := if fault.Some? then Least(fault.value, CHUNK - 1) else CHUNK;
    file[pos..Least(pos + want, |file|)]
  }

  function ReadError(file: Bytes, pos: nat, fault: Fault): Error
    requires pos <= |file|
  {
    if fault.Some? then OtherError
    else if |ReadBytes(file, pos, fault)| == CHUNK then NoError
    else Eof
  }

  // StillStreaming: the turns have run out. SendFailed(true) and NilError dereference an error that is nil.
  datatype Outcome =
    | StillStreaming | Canceled | Complete | ReadFailed | NilError | SendFailed(nilError: bool)

  // What a run of either loop has done: its outcome, the chunks sent, the file and position when it
  // stopped, and bytes that were read but not sent.
  datatype Stream = Stream(out: Outcome, sent: seq<Bytes>, file: Bytes, pos: nat, unsent: Bytes)

  function Flatten(chunks: seq<Bytes>): Bytes {
    if chunks == [] then [] else chunks[0] + Flatten(chunks[1..])
  }

  /** The chunk, if it has any bytes, is sent ahead of what follows. */
  function Deliver(chunk: Bytes, s: Stream): Stream {
    if chunk == [] then s else s.(sent := [chunk] + s.sent)
  }

  // ---------------------------------------------------------------- a finished job

  datatype Turn = Turn(cancelled: bool, appended: Bytes, fault: Fault, sendOk: bool)

  /** The finished-job loop from position pos, with its error test as written or, if repaired, with the
      test the way round its messages mean: fail on other errors, go on when there is none. */
  function Finished(file: Bytes, pos: nat, turns: seq<Turn>, repaired: bool): Stream
    requires pos <= |file|
    decreases turns, 0
  {
    if turns == [] then Stream(StillStreaming, [], file, pos, [])
    else if turns[0].cancelled then Stream(Canceled, [], file, pos, [])
    else
      var file' := file + turns[0].appended;
      var chunk := ReadBytes(file', pos, turns[0].fault);
      var err := ReadError(file', pos, turns[0].fault);
      if chunk != [] && !turns[0].sendOk then Stream(SendFailed(err.NoError?), [], file', pos, chunk)
      else Deliver(chunk, AfterRead(file', pos + |chunk|, err, turns[1..], repaired))
  }

  function AfterRead(file: Bytes, pos: nat, err: Error, turns: seq<Turn>, repaired: bool): Stream
    requires pos <= |file|
    decreases turns, 1
  {
    if err.Eof? then Stream(Complete, [], file, pos, [])
    else if err.NoError? && !repaired then Stream(NilError, [], file, pos, [])
    else if err.OtherError? && repaired then Stream(ReadFailed, [], file, pos, [])
    else Finished(file, pos, turns, repaired)
  }

  // ---------------------------------------------------------------- a running job

  // One turn of the inner loop: TryLock succeeds, since no watcher is at work, or the reader waits and is
  // woken, by when the writer has appended something, and reads.
  datatype Wake = NoWatcher | Woken(appended: Bytes, fault: Fault)

  datatype LiveTurn = LiveTurn(cancelled: bool, wakes: seq<Wake>, watcherGone: bool, sendOk: bool)

  datatype Gate = Gate(left: bool, file: Bytes, chunk: Bytes, err: Error)

  /** The inner loop, entered with the error the previous turn left behind. */
  function Await(file: Bytes, pos: nat, err: Error, wakes: seq<Wake>): Gate
    requires pos <= |file|
    decreases wakes
  {
    if wakes == [] then Gate(false, file, [], err)
    else
      match wakes[0]
      case NoWatcher => Gate(true, file, [], err)
      case Woken(appended, fault) =>
        var file' := file + appended;
        var chunk := ReadBytes(file', pos, fault);
        var err' := ReadError(file', pos, fault);
        if chunk != [] then Gate(true, file', chunk, err') else Await(file', pos, err', wakes[1..])
  }

  lemma {:induction false} AwaitReads(file: Bytes, pos: nat, err: Error, wakes: seq<Wake>)
    requires pos <= |file|
    ensures var g := Await(file, pos, err, wakes);
            file <= g.file && |g.chunk| <= CHUNK && pos + |g.chunk| <= |g.file|
            && g.chunk == g.file[pos..pos + |g.chunk|]
    decreases wakes
  {
    if wakes != [] && wakes[0].Woken? {
      AwaitReads(file + wakes[0].appended, pos, ReadError(file + wakes[0].appended, pos, wakes[0].fault), wakes[1..]);
    }
  }

  function Live(file: Bytes, pos: nat, err: Error, turns: seq<LiveTurn>): Stream
    requires pos <= |file|
    decreases turns
  {
    if turns == [] then Stream(StillStreaming, [], file, pos, [])
    else if turns[0].cancelled then Stream(Canceled, [], file, pos, [])
    else
      var g := Await(file, pos, err, turns[0].wakes);
      AwaitReads(file, pos, err, turns[0].wakes);
      if !g.left then Stream(StillStreaming, [], g.file, pos, g.chunk)
      else if g.err.OtherError? then Stream(ReadFailed, [], g.file, pos, g.chunk)
      else if g.err.Eof? && turns[0].watcherGone then Stream(Complete, [], g.file, pos, g.chunk)
      else if g.chunk != [] && !turns[0].sendOk then Stream(SendFailed(false), [], g.file, pos, g.chunk)
      else
        Deliver(g.chunk, Live(g.file, pos + |g.chunk|, g.err, turns[1..]))
  }

  // ---------------------------------------------------------------- exact prefix delivery

  /** What was sent is exactly the file from the starting position to the position reached, in chunks of
      1 to 1024 bytes, and what was read but not sent is the next stretch of the file. */
  ghost predicate ExactPrefix(s: Stream, file: Bytes, pos: nat) {
    && file <= s.file
    && pos <= s.pos && s.pos + |s.unsent| <= |s.file|
    && Flatten(s.sent) == s.file[pos..s.pos]
    && s.unsent == s.file[s.pos..s.pos + |s.unsent|]
    && forall i :: 0 <= i < |s.sent| ==> 1 <= |s.sent[i]| <= CHUNK
  }

  lemma NothingSent(out: Outcome, file: Bytes, file': Bytes, pos: nat, unsent: Bytes)
    requires file <= file' && pos + |unsent| <= |file'| && unsent == file'[pos..pos + |unsent|]
    ensures ExactPrefix(Stream(out, [], file', pos, unsent), file, pos)
  {
  }

  lemma DeliverPrefix(chunk: Bytes, rest: Stream, file: Bytes, file': Bytes, pos: nat)
    requires file <= file' && |chunk| <= CHUNK && pos + |chunk| <= |file'|
    requires chunk == file'[pos..pos + |chunk|]
    requires ExactPrefix(rest, file', pos + |chunk|)
    ensures ExactPrefix(Deliver(chunk, rest), file, pos)
  {
    if chunk != [] {
      var s := Deliver(chunk, rest);
      assert s.sent[1..] == rest.sent;
      assert rest.file[pos..pos + |chunk|] == chunk;
      assert rest.file[pos..rest.pos] == rest.file[pos..pos + |chunk|] + rest.file[pos + |chunk|..rest.pos];
    }
  }

  lemma {:induction false} FinishedIsExactPrefix(file: Bytes, pos: nat, turns: seq<Turn>, repaired: bool)
    requires pos <= |file|
    ensures ExactPrefix(Finished(file, pos, turns, repaired), file, pos)
    decreases turns
  {
    hide ExactPrefix, Deliver;
    NothingSent(Finished(file, pos, turns, repaired).out, file, file, pos, []);
    if turns != [] && !turns[0].cancelled {
      var file' := file + turns[0].appended;
      var chunk := ReadBytes(file', pos, turns[0].fault);
      var err := ReadError(file', pos, turns[0].fault);
      NothingSent(SendFailed(err.NoError?), file, file', pos, chunk);
      FinishedIsExactPrefix(file', pos + |chunk|, turns[1..], repaired);
      var rest := AfterRead(file', pos + |chunk|, err, turns[1..], repaired);
      NothingSent(rest.out, file', file', pos + |chunk|, []);
      DeliverPrefix(chunk, rest, file, file', pos);
    }
  }

  lemma {:induction false} LiveIsExactPrefix(file: Bytes, pos: nat, err: Error, turns: seq<LiveTurn>)
    requires pos <= |file|
    ensures ExactPrefix(Live(file, pos, err, turns), file, pos)
    decreases turns
  {
    hide ExactPrefix, Deliver, Await;
    NothingSent(Live(file, pos, err, turns).out, file, file, pos, []);
    if turns != [] && !turns[0].cancelled {
      var g := Await(file, pos, err, turns[0].wakes);
      AwaitReads(file, pos, err, turns[0].wakes);
      NothingSent(Live(file, pos, err, turns).out, file, g.file, pos, g.chunk);
      var rest := Live(g.file, pos + |g.chunk|, g.err, turns[1..]);
      LiveIsExactPrefix(g.file, pos + |g.chunk|, g.err, turns[1..]);
      DeliverPrefix(g.chunk, rest, file, g.file, pos);
    }
  }

  // ---------------------------------------------------------------- the finished-job branch, exactly

  predicate QuietTurn(t: Turn) { !t.cancelled && t.appended == [] && t.fault.None? && t.sendOk }

  /** As written, one undisturbed turn decides: a file shorter than a chunk is delivered whole and the call
      succeeds; of any other file one chunk is delivered and the call fails on an error that is nil. */
  lemma FinishedAsWritten(file: Bytes, turns: seq<Turn>)
    requires turns != [] && !turns[0].cancelled && turns[0].fault.None? && turns[0].sendOk
    ensures var s := Finished(file, 0, turns, false); var file' := file + turns[0].appended;
            && s.file == file' && s.unsent == []
            && (s.out == Complete <==> |file'| < CHUNK)
            && (s.out == NilError <==> |file'| >= CHUNK)
            && (Flatten(s.sent) == file' <==> |file'| <= CHUNK)
            && Flatten(s.sent) == file'[..Least(CHUNK, |file'|)]
  {
    var file' := file + turns[0].appended;
    var chunk := ReadBytes(file', 0, None);
    var s := Finished(file, 0, turns, false);
    assert chunk == file'[..Least(CHUNK, |file'|)];
    var rest := AfterRead(file', |chunk|, ReadError(file', 0, None), turns[1..], false);
    assert rest.sent == [] && s == Deliver(chunk, rest);
    assert [chunk] + [] == [chunk];
    assert Flatten([chunk]) == chunk + Flatten([chunk][1..]) == chunk;
    if |file'| <= CHUNK { assert chunk == file'; }
  }

  /** Repaired, every n-byte file is delivered whole: Complete after floor(n/1024)+1 reads, no fewer, and
      ceil(n/1024) sends. */
  lemma {:induction false} RepairedFrom(file: Bytes, pos: nat, turns: seq<Turn>)
    requires pos <= |file| && forall i :: 0 <= i < |turns| ==> QuietTurn(turns[i])
    ensures var s := Finished(file, pos, turns, true); var n := |file| - pos;
            && s.file == file && s.unsent == []
            && (s.out == Complete <==> |turns| >= n / CHUNK + 1)
            && (s.out == Complete ==> s.pos == |file| && |s.sent| == (n + CHUNK - 1) / CHUNK)
    decreases |file| - pos, turns
  {
    if turns != [] {
      assert QuietTurn(turns[0]);
      assert file + turns[0].appended == file;
      var chunk := ReadBytes(file, pos, None);
      if |chunk| == CHUNK {
        RepairedFrom(file, pos + CHUNK, turns[1..]);
        OneChunkLess(|file| - pos);
      }
    }
  }

  lemma OneChunkLess(n: nat)
    requires n >= CHUNK
    ensures n / CHUNK == (n - CHUNK) / CHUNK + 1
    ensures (n + CHUNK - 1) / CHUNK == (n - CHUNK + CHUNK - 1) / CHUNK + 1
  {
  }

  lemma RepairedDeliversAll(file: Bytes, turns: seq<Turn>)
    requires forall i :: 0 <= i < |turns| ==> QuietTurn(turns[i])
    ensures var s := Finished(file, 0, turns, true);
            && (s.out == Complete <==> |turns| >= |file| / CHUNK + 1)
            && (s.out == Complete ==> Flatten(s.sent) == file && |s.sent| == (|file| + CHUNK - 1) / CHUNK)
  {
    RepairedFrom(file, 0, turns);
    FinishedIsExactPrefix(file, 0, turns, true);
    assert file[0..|file|] == file;
  }

  // ---------------------------------------------------------------- the running-job branch, exactly

  lemma {:induction false} EofIsTheEnd(file: Bytes, pos: nat, err: Error, wakes: seq<Wake>)
    requires pos <= |file| && (err.Eof? ==> pos == |file|)
    ensures var g := Await(file, pos, err, wakes);
            g.err.Eof? ==> pos + |g.chunk| == |g.file| && |g.chunk| < CHUNK
    decreases wakes
  {
    if wakes != [] && wakes[0].Woken? {
      var file' := file + wakes[0].appended;
      if ReadBytes(file', pos, wakes[0].fault) == [] {
        EofIsTheEnd(file', pos, ReadError(file', pos, wakes[0].fault), wakes[1..]);
      }
    }
  }

  lemma {:induction false} CompleteAtTheEnd(file: Bytes, pos: nat, err: Error, turns: seq<LiveTurn>)
    requires pos <= |file| && (err.Eof? ==> pos == |file|)
    ensures var s := Live(file, pos, err, turns);
            s.out == Complete ==> |s.unsent| < CHUNK && s.pos + |s.unsent| == |s.file|
    decreases turns
  {
    hide Await;
    if turns != [] && !turns[0].cancelled {
      var g := Await(file, pos, err, turns[0].wakes);
      AwaitReads(file, pos, err, turns[0].wakes);
      EofIsTheEnd(file, pos, err, turns[0].wakes);
      if g.left && !g.err.OtherError? {
        CompleteAtTheEnd(g.file, pos + |g.chunk|, g.err, turns[1..]);
      }
    }
  }

  /** What a call that succeeds has lost: the log, as it last saw it, is what it sent followed by what it read and
      did not send. That is less than one chunk, and the whole log was sent if and only if it is nothing. */
  lemma CompleteLosesLessThanAChunk(log: Bytes, turns: seq<LiveTurn>)
    ensures var s := Live(log, 0, NoError, turns);
            s.out == Complete ==>
              && |s.unsent| < CHUNK && Flatten(s.sent) + s.unsent == s.file && log <= s.file
              && (Flatten(s.sent) == s.file <==> s.unsent == [])
  {
    var s := Live(log, 0, NoError, turns);
    LiveIsExactPrefix(log, 0, NoError, turns);
    CompleteAtTheEnd(log, 0, NoError, turns);
    if s.out == Complete {
      assert s.file[0..s.pos] + s.file[s.pos..s.pos + |s.unsent|] == s.file;
      assert s.unsent == [] ==> Flatten(s.sent) == s.file;
      assert Flatten(s.sent) == s.file ==> |s.unsent| == 0;
    }
  }

  /** Bytes read together with the end of the file are sent exactly when the watcher is still found at
      work; otherwise the call succeeds without them. */
  lemma TailSentExactly(file: Bytes, pos: nat, err: Error, turns: seq<LiveTurn>)
    requires pos <= |file| && turns != [] && !turns[0].cancelled && turns[0].sendOk
    requires var g := Await(file, pos, err, turns[0].wakes); g.left && g.err.Eof? && g.chunk != []
    ensures var g := Await(file, pos, err, turns[0].wakes); var s := Live(file, pos, err, turns);
            && (turns[0].watcherGone ==> s == Stream(Complete, [], g.file, pos, g.chunk))
            && (!turns[0].watcherGone <==> s.sent != [] && s.sent[0] == g.chunk)
  {
    AwaitReads(file, pos, err, turns[0].wakes);
  }

  /** The smallest case: a one-byte log whose watcher is done when the reader has read it. */
  lemma TailCanBeLost(b: byte)
    ensures Live([b], 0, NoError, [LiveTurn(false, [Woken([], None)], true, true)])
            == Stream(Complete, [], [b], 0, [b])
  {
    assert [b] + [] == [b];
    assert ReadBytes([b], 0, None) == [b];
    assert Await([b], 0, NoError, [Woken([], None)]) == Gate(true, [b], [b], Eof);
  }

  /** A turn that is not cancelled and finds no watcher at work at its first TryLock, so that it reads nothing. */
  predicate IdleTurn(t: LiveTurn) { !t.cancelled && t.wakes != [] && t.wakes[0].NoWatcher? }

  ghost predicate SomeLockFree(turns: seq<LiveTurn>) { exists i :: 0 <= i < |turns| && turns[i].watcherGone }

  /** What any number of turns without a watcher comes to is decided by the error they are entered with, which
      no read ever replaces. Nothing is sent and the position stays. Another error fails the call. End of file
      ends it as soon as the second TryLock succeeds too. Without an error the call goes round and never ends. */
  lemma {:induction false} IdleTurnsExactly(file: Bytes, pos: nat, err: Error, turns: seq<LiveTurn>)
    requires pos <= |file| && forall i :: 0 <= i < |turns| ==> IdleTurn(turns[i])
    ensures var s := Live(file, pos, err, turns);
            && s == Stream(s.out, [], file, pos, [])
            && (s.out == ReadFailed <==> err.OtherError? && turns != [])
            && (s.out == Complete <==> err.Eof? && SomeLockFree(turns))
            && (s.out == StillStreaming <==> err.NoError? || turns == [] || (err.Eof? && !SomeLockFree(turns)))
    decreases turns
  {
    if turns != [] {
      assert IdleTurn(turns[0]);
      IdleTurnsExactly(file, pos, err, turns[1..]);
      if SomeLockFree(turns) && !turns[0].watcherGone {
        var i :| 0 <= i < |turns| && turns[i].watcherGone;
        assert turns[1..][i - 1].watcherGone;
      }
    }
  }

  /** With the watcher gone for good the loop spins if and only if it is entered without an error. */
  lemma {:induction false} SpinsWithoutWatcher(file: Bytes, pos: nat, err: Error, turns: seq<LiveTurn>)
    requires pos <= |file| && turns != []
    requires forall i :: 0 <= i < |turns| ==> IdleTurn(turns[i]) && turns[i].watcherGone
    ensures Live(file, pos, err, turns) ==
            Stream(match err case NoError => StillStreaming case Eof => Complete case OtherError => ReadFailed,
                   [], file, pos, [])
  {
    IdleTurnsExactly(file, pos, err, turns);
    assert turns[0].watcherGone;
  }

  /** So the call never returns, and sends nothing of whatever log, when its first turns meet no watcher: the
      error it starts with is the nil left by opening the file. */
  lemma {:induction false} SpinsOnEntry(log: Bytes, turns: seq<LiveTurn>)
    requires forall i :: 0 <= i < |turns| ==> IdleTurn(turns[i])
    ensures Live(log, 0, NoError, turns) == Stream(StillStreaming, [], log, 0, [])
  {
    IdleTurnsExactly(log, 0, NoError, turns);
  }

  /** And it spins after a read that filled the buffer, whatever is left of the log. */
  lemma {:induction false} SpinsAfterAFullChunk(log: Bytes, first: LiveTurn, turns: seq<LiveTurn>)
    requires |log| >= CHUNK && !first.cancelled && first.wakes == [Woken([], None)] && first.sendOk
    requires forall i :: 0 <= i < |turns| ==> IdleTurn(turns[i])
    ensures Live(log, 0, NoError, [first] + turns) == Stream(StillStreaming, [log[..CHUNK]], log, CHUNK, [])
  {
    assert log + [] == log;
    assert ([first] + turns)[1..] == turns;
    assert ReadBytes(log, 0, None) == log[..CHUNK];
    assert Await(log, 0, NoError, first.wakes) == Gate(true, log, log[..CHUNK], NoError);
    IdleTurnsExactly(log, CHUNK, NoError, turns);
  }
}
