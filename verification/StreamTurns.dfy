/** Both loops of StreamOutput turn by turn, from the first one on: what every turn must have met for the loop to
    reach the next, and what ends it. */
module StreamTurns {
  import opened Base
  import opened StreamSpec

  // ---------------------------------------------------------------- reads

  /** The contract of ReadAt: it fills the buffer, or reaches the end of the file, or meets another error; the
      error tells which. */
  lemma ReadAtContract(file: Bytes, pos: nat, fault: Fault)
    requires pos <= |file|
    ensures var chunk, err := ReadBytes(file, pos, fault), ReadError(file, pos, fault);
            && chunk == file[pos..pos + |chunk|]
            && (err.NoError? <==> |chunk| == CHUNK)
            && (err.Eof? <==> fault.None? && |chunk| < CHUNK)
            && (err.OtherError? <==> fault.Some?)
            && (err.Eof? ==> pos + |chunk| == |file|)
            && (fault.Some? ==> |chunk| == Least(Least(fault.value, CHUNK - 1), |file| - pos))
  {
  }

  function OneOrNone(chunk: Bytes): seq<Bytes> { if chunk == [] then [] else [chunk] }

  /** These chunks were sent ahead of what a stream sends. */
  function Ahead(sent: seq<Bytes>, s: Stream): Stream { s.(sent := sent + s.sent) }

  // ---------------------------------------------------------------- a finished job

  // The loop at its head.
  datatype Head = Head(file: Bytes, pos: nat, sent: seq<Bytes>)

  /** The turn lets the loop go round: it is not cancelled, what it read was sent, and its read ended in the error
      that goes on, which is any but end of file as written, and none if repaired. */
  predicate GoesRound(h: Head, t: Turn, repaired: bool, h': Head) {
    var file := h.file + t.appended;
    && h.pos <= |file| && !t.cancelled
    && var chunk := ReadBytes(file, h.pos, t.fault);
    && (chunk != [] ==> t.sendOk)
    && ReadError(file, h.pos, t.fault) == (if repaired then NoError else OtherError)
    && h' == Head(file, h.pos + |chunk|, h.sent + OneOrNone(chunk))
  }

  /** The loop is at hs[i] when turn i begins. */
  ghost predicate Rounds(log: Bytes, turns: seq<Turn>, repaired: bool, hs: seq<Head>) {
    && 1 <= |hs| <= |turns| + 1 && hs[0] == Head(log, 0, [])
    && forall i :: 0 <= i < |hs| - 1 ==> GoesRound(hs[i], turns[i], repaired, hs[i + 1])
  }

  /** What the turn that ends the loop makes of it. */
  predicate EndsRound(h: Head, t: Turn, repaired: bool, s: Stream) {
    var file := h.file + t.appended;
    h.pos <= |file| &&
    var chunk, err := ReadBytes(file, h.pos, t.fault), ReadError(file, h.pos, t.fault);
    if t.cancelled then s == Stream(Canceled, h.sent, h.file, h.pos, [])
    else if chunk != [] && !t.sendOk then s == Stream(SendFailed(err.NoError?), h.sent, file, h.pos, chunk)
    else
      && s == Stream(s.out, h.sent + OneOrNone(chunk), file, h.pos + |chunk|, [])
      && (if err.Eof? then s.out == Complete
          else if repaired then err.OtherError? && s.out == ReadFailed
          else err.NoError? && s.out == NilError)
  }

  lemma DeliverAhead(sent: seq<Bytes>, chunk: Bytes, s: Stream)
    ensures Ahead(sent, Deliver(chunk, s)) == Ahead(sent + OneOrNone(chunk), s)
  {
    if chunk == [] {
      assert sent + OneOrNone(chunk) == sent;
    } else {
      assert sent + ([chunk] + s.sent) == sent + [chunk] + s.sent;
    }
  }

  lemma {:induction false} FinishedFrom(log: Bytes, turns: seq<Turn>, repaired: bool, before: seq<Head>)
    returns (hs: seq<Head>)
    requires Rounds(log, turns, repaired, before) && before[|before| - 1].pos <= |before[|before| - 1].file|
    ensures Rounds(log, turns, repaired, hs) && before <= hs
    ensures var h, h' := before[|before| - 1], hs[|hs| - 1];
            var s := Ahead(h.sent, Finished(h.file, h.pos, turns[|before| - 1..], repaired));
            if |hs| == |turns| + 1 then s == Stream(StillStreaming, h'.sent, h'.file, h'.pos, [])
            else EndsRound(h', turns[|hs| - 1], repaired, s)
    decreases |turns| - |before|
  {
    hide GoesRound, EndsRound, Finished;
    hs := before;
    var n := |before| - 1;
    var h := before[n];
    if n < |turns| {
      var t := turns[n];
      assert turns[n..][0] == t && turns[n..][1..] == turns[n + 1..];
      var next, goes := OneTurn(h, turns[n..], repaired);
      if goes {
        hs := FinishedFrom(log, turns, repaired, before + [next]);
      }
    } else {
      OutOfTurns(h, repaired);
    }
  }

  lemma OutOfTurns(h: Head, repaired: bool)
    requires h.pos <= |h.file|
    ensures Ahead(h.sent, Finished(h.file, h.pos, [], repaired)) == Stream(StillStreaming, h.sent, h.file, h.pos, [])
  {
    assert h.sent + [] == h.sent;
  }

  /** The first turn either goes round, and the rest is what comes of the next head, or ends the loop. */
  lemma OneTurn(h: Head, turns: seq<Turn>, repaired: bool) returns (next: Head, goes: bool)
    requires h.pos <= |h.file| && turns != []
    ensures goes ==> GoesRound(h, turns[0], repaired, next) && next.pos <= |next.file|
                     && Ahead(h.sent, Finished(h.file, h.pos, turns, repaired))
                        == Ahead(next.sent, Finished(next.file, next.pos, turns[1..], repaired))
    ensures !goes ==> EndsRound(h, turns[0], repaired, Ahead(h.sent, Finished(h.file, h.pos, turns, repaired)))
  {
    hide ReadBytes;
    var t := turns[0];
    var file := h.file + t.appended;
    var chunk, err := ReadBytes(file, h.pos, t.fault), ReadError(file, h.pos, t.fault);
    next := Head(file, h.pos + |chunk|, h.sent + OneOrNone(chunk));
    DeliverAhead(h.sent, chunk, AfterRead(file, next.pos, err, turns[1..], repaired));
    assert h.sent + [] == h.sent && next.sent + [] == next.sent;
    goes := !t.cancelled && (chunk != [] ==> t.sendOk) && err == if repaired then NoError else OtherError;
  }

  /** The finished-job branch, turn by turn: it reaches the head of its loop with hs and no further; every turn
      before went round, and the next, if there is one, ends it as EndsRound says. */
  lemma FinishedByTurns(log: Bytes, turns: seq<Turn>, repaired: bool) returns (hs: seq<Head>)
    ensures Rounds(log, turns, repaired, hs)
    ensures var s, h := Finished(log, 0, turns, repaired), hs[|hs| - 1];
            if |hs| == |turns| + 1 then s == Stream(StillStreaming, h.sent, h.file, h.pos, [])
            else EndsRound(h, turns[|hs| - 1], repaired, s)
  {
    hs := FinishedFrom(log, turns, repaired, [Head(log, 0, [])]);
    assert turns[0..] == turns;
    assert [] + Finished(log, 0, turns, repaired).sent == Finished(log, 0, turns, repaired).sent;
  }

  /** The turn read something and its Send worked. */
  ghost predicate SentBy(turns: seq<Turn>, hs: seq<Head>, i: nat, chunk: Bytes) {
    && i < |turns| && i + 1 < |hs| && chunk != [] && turns[i].sendOk && !turns[i].cancelled
    && hs[i].pos <= |hs[i].file + turns[i].appended|
    && chunk == ReadBytes(hs[i].file + turns[i].appended, hs[i].pos, turns[i].fault)
  }

  ghost predicate SentBefore(turns: seq<Turn>, hs: seq<Head>, n: nat, chunk: Bytes) {
    exists i: nat :: i < n && SentBy(turns, hs, i, chunk)
  }

  lemma {:induction false} EverySentChunk(log: Bytes, turns: seq<Turn>, repaired: bool, hs: seq<Head>, n: nat, c: nat)
    requires Rounds(log, turns, repaired, hs) && n < |hs| && c < |hs[n].sent|
    ensures SentBefore(turns, hs, n, hs[n].sent[c])
  {
    if n > 0 {
      assert GoesRound(hs[n - 1], turns[n - 1], repaired, hs[n]);
      if c < |hs[n - 1].sent| {
        EverySentChunk(log, turns, repaired, hs, n - 1, c);
        assert hs[n].sent[c] == hs[n - 1].sent[c];
      } else {
        assert SentBy(turns, hs, n - 1, hs[n].sent[c]);
      }
    }
  }

  /** Sends and cancellations in the finished-job branch: each chunk counted as sent was read by a turn whose Send
      worked; the call fails on a Send if and only if the turn that ends it read bytes and its Send failed, and
      they are then the unsent ones; it is cancelled if and only if that turn found the context done. */
  lemma FinishedSends(log: Bytes, turns: seq<Turn>, repaired: bool) returns (hs: seq<Head>)
    ensures Rounds(log, turns, repaired, hs)
    ensures var s, n := Finished(log, 0, turns, repaired), |hs| - 1;
      && hs[n].sent <= s.sent
      && (forall c :: 0 <= c < |hs[n].sent| ==> SentBefore(turns, hs, n, s.sent[c]))
      && (s.sent != hs[n].sent ==> n < |turns| && turns[n].sendOk && |s.sent| == |hs[n].sent| + 1)
      && (s.out.Canceled? <==> n < |turns| && turns[n].cancelled)
      && (s.out.SendFailed? <==>
            n < |turns| && !turns[n].cancelled && !turns[n].sendOk && hs[n].pos <= |hs[n].file + turns[n].appended|
            && ReadBytes(hs[n].file + turns[n].appended, hs[n].pos, turns[n].fault) != [])
      && (s.out.SendFailed? ==> s.unsent == ReadBytes(hs[n].file + turns[n].appended, hs[n].pos, turns[n].fault))
      && (!s.out.SendFailed? ==> s.unsent == [])
  {
    hide SentBefore, GoesRound;
    hs := FinishedByTurns(log, turns, repaired);
    var s, n := Finished(log, 0, turns, repaired), |hs| - 1;
    forall c | 0 <= c < |hs[n].sent| ensures SentBefore(turns, hs, n, s.sent[c]) {
      EverySentChunk(log, turns, repaired, hs, n, c);
      assert s.sent[c] == hs[n].sent[c];
    }
  }

  // ---------------------------------------------------------------- the inner loop for a running job

  function Appended(wakes: seq<Wake>): Bytes {
    if wakes == [] then []
    else (if wakes[0].Woken? then wakes[0].appended else []) + Appended(wakes[1..])
  }

  // The loop at its head: err is what the last read of the call left behind.
  datatype LiveHead = LiveHead(file: Bytes, pos: nat, err: Error, sent: seq<Bytes>)

  /** The log as read number i of the turn finds it. */
  function FileAt(h: LiveHead, wakes: seq<Wake>, i: nat): Bytes
    requires i < |wakes|
  {
    h.file + Appended(wakes[..i + 1])
  }

  /** The inner loop makes n reads, each after a wait, of which only the last can have got anything, and stops there:
      because it got something, or because no watcher is at work, or because nobody wakes it (left is false). */
  ghost predicate Inner(h: LiveHead, wakes: seq<Wake>, n: nat, g: Gate) {
    && n <= |wakes| && h.pos <= |h.file|
    && (forall i :: 0 <= i < n ==> wakes[i].Woken?)
    && (forall i :: 0 <= i < n - 1 ==> ReadBytes(FileAt(h, wakes, i), h.pos, wakes[i].fault) == [])
    && (if n == 0 then g.file == h.file && g.chunk == [] && g.err == h.err
        else
          && g.file == FileAt(h, wakes, n - 1)
          && g.chunk == ReadBytes(g.file, h.pos, wakes[n - 1].fault)
          && g.err == ReadError(g.file, h.pos, wakes[n - 1].fault))
    && (g.chunk != [] || n == |wakes| || wakes[n].NoWatcher?)
    && (g.left <==> g.chunk != [] || n < |wakes|)
  }

  lemma FileShifts(h: LiveHead, wakes: seq<Wake>, i: nat)
    requires wakes != [] && wakes[0].Woken? && i < |wakes| - 1
    ensures FileAt(h.(file := h.file + wakes[0].appended), wakes[1..], i) == FileAt(h, wakes, i + 1)
  {
    assert wakes[..i + 2][1..] == wakes[1..][..i + 1];
    var more := Appended(wakes[1..][..i + 1]);
    assert h.file + wakes[0].appended + more == h.file + (wakes[0].appended + more);
  }

  lemma FirstFile(h: LiveHead, wakes: seq<Wake>)
    requires wakes != [] && wakes[0].Woken?
    ensures FileAt(h, wakes, 0) == h.file + wakes[0].appended
  {
    assert wakes[..1] == [wakes[0]];
    assert Appended([wakes[0]]) == wakes[0].appended + Appended([wakes[0]][1..]) == wakes[0].appended;
  }

  lemma OneReadMore(h: LiveHead, wakes: seq<Wake>, m: nat, g: Gate)
    requires wakes != [] && wakes[0].Woken? && h.pos <= |h.file|
    requires var file := h.file + wakes[0].appended;
             && ReadBytes(file, h.pos, wakes[0].fault) == []
             && Inner(h.(file := file, err := ReadError(file, h.pos, wakes[0].fault)), wakes[1..], m, g)
    ensures Inner(h, wakes, m + 1, g)
  {
    hide FileAt, ReadBytes, ReadError, Appended;
    FirstFile(h, wakes);
    var file := h.file + wakes[0].appended;
    var h' := h.(file := file, err := ReadError(file, h.pos, wakes[0].fault));
    forall i | 0 <= i < |wakes| - 1 ensures FileAt(h', wakes[1..], i) == FileAt(h, wakes, i + 1) {
      FileShifts(h, wakes, i);
      SameFile(h', h.(file := file), wakes[1..], i);
    }
    forall i | 0 <= i < m ensures ReadBytes(FileAt(h, wakes, i), h.pos, wakes[i].fault) == [] {
      if i > 0 {
        assert ReadBytes(FileAt(h', wakes[1..], i - 1), h.pos, wakes[1..][i - 1].fault) == [];
      }
    }
  }

  lemma SameFile(h: LiveHead, h': LiveHead, wakes: seq<Wake>, i: nat)
    requires h.file == h'.file && i < |wakes|
    ensures FileAt(h, wakes, i) == FileAt(h', wakes, i)
  {
  }

  /** What comes out of the inner loop, read by read. */
  lemma {:induction false} AwaitByReads(h: LiveHead, wakes: seq<Wake>) returns (n: nat)
    requires h.pos <= |h.file|
    ensures Inner(h, wakes, n, Await(h.file, h.pos, h.err, wakes))
    decreases wakes
  {
    n := 0;
    if wakes != [] && wakes[0].Woken? {
      var file := h.file + wakes[0].appended;
      if ReadBytes(file, h.pos, wakes[0].fault) == [] {
        hide Inner;
        n := AwaitByReads(h.(file := file, err := ReadError(file, h.pos, wakes[0].fault)), wakes[1..]);
        OneReadMore(h, wakes, n, Await(h.file, h.pos, h.err, wakes));
        n := n + 1;
      } else {
        FirstFile(h, wakes);
        n := 1;
      }
    }
  }

  // ---------------------------------------------------------------- a running job

  /** The turn lets the loop go round, from h to h': it is not cancelled, its inner loop ended, without another
      error, and not at the end of the file with WatcherLock free; and what it read was sent. */
  ghost predicate GoesOn(h: LiveHead, t: LiveTurn, n: nat, chunk: Bytes, h': LiveHead) {
    && !t.cancelled && Inner(h, t.wakes, n, Gate(true, h'.file, chunk, h'.err))
    && !h'.err.OtherError? && !(h'.err.Eof? && t.watcherGone) && (chunk != [] ==> t.sendOk)
    && h'.pos == h.pos + |chunk| && h'.sent == h.sent + OneOrNone(chunk)
  }

  /** One more than the number of turns that went round; ns and chunks say what each of those read. */
  ghost predicate LiveRounds(log: Bytes, turns: seq<LiveTurn>, hs: seq<LiveHead>, ns: seq<nat>, chunks: seq<Bytes>) {
    && 1 <= |hs| <= |turns| + 1 && hs[0] == LiveHead(log, 0, NoError, []) && |ns| == |chunks| == |hs| - 1
    && forall i :: 0 <= i < |hs| - 1 ==> GoesOn(hs[i], turns[i], ns[i], chunks[i], hs[i + 1])
  }

  /** What the turn that ends the loop makes of it. Bytes it read are not sent, whatever ends it. */
  ghost predicate EndsLive(h: LiveHead, t: LiveTurn, s: Stream) {
    if t.cancelled then s == Stream(Canceled, h.sent, h.file, h.pos, [])
    else exists n, g ::
      && Inner(h, t.wakes, n, g) && s == Stream(s.out, h.sent, g.file, h.pos, g.chunk)
      && (if !g.left then s.out == StillStreaming
          else if g.err.OtherError? then s.out == ReadFailed
          else if g.err.Eof? && t.watcherGone then s.out == Complete
          else g.chunk != [] && !t.sendOk && s.out == SendFailed(false))
  }

  lemma {:induction false} LiveFrom(log: Bytes, turns: seq<LiveTurn>, hs0: seq<LiveHead>, ns0: seq<nat>, chunks0: seq<Bytes>)
    returns (hs: seq<LiveHead>, ns: seq<nat>, chunks: seq<Bytes>)
    requires LiveRounds(log, turns, hs0, ns0, chunks0) && hs0[|hs0| - 1].pos <= |hs0[|hs0| - 1].file|
    ensures LiveRounds(log, turns, hs, ns, chunks) && hs0 <= hs
    ensures var h, h' := hs0[|hs0| - 1], hs[|hs| - 1];
            var s := Ahead(h.sent, Live(h.file, h.pos, h.err, turns[|hs0| - 1..]));
            if |hs| == |turns| + 1 then s == Stream(StillStreaming, h'.sent, h'.file, h'.pos, [])
            else EndsLive(h', turns[|hs| - 1], s)
    decreases |turns| - |hs0|
  {
    hide GoesOn, EndsLive, Live;
    hs, ns, chunks := hs0, ns0, chunks0;
    var m := |hs0| - 1;
    var h := hs0[m];
    if m < |turns| {
      assert turns[m..][0] == turns[m] && turns[m..][1..] == turns[m + 1..];
      var next, n, chunk, goes := OneLiveTurn(h, turns[m..]);
      if goes {
        hs, ns, chunks := LiveFrom(log, turns, hs0 + [next], ns0 + [n], chunks0 + [chunk]);
      }
    } else {
      OutOfLiveTurns(h);
    }
  }

  lemma OutOfLiveTurns(h: LiveHead)
    requires h.pos <= |h.file|
    ensures Ahead(h.sent, Live(h.file, h.pos, h.err, [])) == Stream(StillStreaming, h.sent, h.file, h.pos, [])
  {
    assert h.sent + [] == h.sent;
  }

  /** The first turn either goes round, and the rest is what comes of the next head, or ends the loop. */
  lemma OneLiveTurn(h: LiveHead, turns: seq<LiveTurn>) returns (next: LiveHead, n: nat, chunk: Bytes, goes: bool)
    requires h.pos <= |h.file| && turns != []
    ensures goes ==> GoesOn(h, turns[0], n, chunk, next) && next.pos <= |next.file|
                     && Ahead(h.sent, Live(h.file, h.pos, h.err, turns))
                        == Ahead(next.sent, Live(next.file, next.pos, next.err, turns[1..]))
    ensures !goes ==> EndsLive(h, turns[0], Ahead(h.sent, Live(h.file, h.pos, h.err, turns)))
  {
    hide Await, Inner;
    var t := turns[0];
    assert h.sent + [] == h.sent;
    n, chunk, next, goes := 0, [], h, false;
    if !t.cancelled {
      var g := Await(h.file, h.pos, h.err, t.wakes);
      AwaitReads(h.file, h.pos, h.err, t.wakes);
      n := AwaitByReads(h, t.wakes);
      chunk := g.chunk;
      next := LiveHead(g.file, h.pos + |chunk|, g.err, h.sent + OneOrNone(chunk));
      DeliverAhead(h.sent, chunk, Live(g.file, next.pos, g.err, turns[1..]));
      goes := g.left && GoesOn(h, t, n, chunk, next);
    }
  }

  /** The running-job branch, turn by turn: it reaches the head of its loop with hs and no further; every turn
      before went round, and the next, if there is one, ends it as EndsLive says. */
  lemma LiveByTurns(log: Bytes, turns: seq<LiveTurn>)
    returns (hs: seq<LiveHead>, ns: seq<nat>, chunks: seq<Bytes>)
    ensures LiveRounds(log, turns, hs, ns, chunks)
    ensures var s, h := Live(log, 0, NoError, turns), hs[|hs| - 1];
            if |hs| == |turns| + 1 then s == Stream(StillStreaming, h.sent, h.file, h.pos, [])
            else EndsLive(h, turns[|hs| - 1], s)
  {
    hide GoesOn, EndsLive;
    hs, ns, chunks := LiveFrom(log, turns, [LiveHead(log, 0, NoError, [])], [], []);
    assert turns[0..] == turns;
    assert [] + Live(log, 0, NoError, turns).sent == Live(log, 0, NoError, turns).sent;
  }

  // ---------------------------------------------------------------- what the turns say

  lemma ReadNumber(h: LiveHead, wakes: seq<Wake>, n: nat, g: Gate, i: nat)
    requires Inner(h, wakes, n, g)
    ensures i < n ==> i < |wakes| && wakes[i].Woken?
    ensures i < n - 1 ==> ReadBytes(FileAt(h, wakes, i), h.pos, wakes[i].fault) == []
  {
  }

  lemma InnerIsUnique(h: LiveHead, wakes: seq<Wake>, n: nat, g: Gate, n': nat, g': Gate)
    requires Inner(h, wakes, n, g) && Inner(h, wakes, n', g')
    ensures n == n' && g == g'
  {
    hide ReadBytes, ReadError, FileAt;
    ReadNumber(h, wakes, n', g', n);
    ReadNumber(h, wakes, n, g, n');
    if n > 0 { ReadNumber(h, wakes, n', g', n - 1); }
    if n' > 0 { ReadNumber(h, wakes, n, g, n' - 1); }
  }

  lemma OneRound(h: LiveHead, turns: seq<LiveTurn>, n: nat, chunk: Bytes, h': LiveHead)
    requires turns != [] && GoesOn(h, turns[0], n, chunk, h')
    ensures h.pos <= |h.file| && h'.pos <= |h'.file|
    ensures Ahead(h.sent, Live(h.file, h.pos, h.err, turns)) == Ahead(h'.sent, Live(h'.file, h'.pos, h'.err, turns[1..]))
    ensures h'.err.Eof? && (h.err.Eof? ==> h.pos == |h.file|) ==> h'.pos == |h'.file|
  {
    hide Await, Inner;
    InnerIn(h, turns[0].wakes, n, Gate(true, h'.file, chunk, h'.err));
    var m := AwaitByReads(h, turns[0].wakes);
    var g := Await(h.file, h.pos, h.err, turns[0].wakes);
    InnerIsUnique(h, turns[0].wakes, n, Gate(true, h'.file, chunk, h'.err), m, g);
    AwaitReads(h.file, h.pos, h.err, turns[0].wakes);
    DeliverAhead(h.sent, chunk, Live(h'.file, h'.pos, h'.err, turns[1..]));
    if h.err.Eof? ==> h.pos == |h.file| {
      EofIsTheEnd(h.file, h.pos, h.err, turns[0].wakes);
    }
  }

  lemma InnerIn(h: LiveHead, wakes: seq<Wake>, n: nat, g: Gate)
    requires Inner(h, wakes, n, g)
    ensures h.pos <= |h.file|
  {
  }

  /** From any head it reaches the call goes on as if it had begun there, and with end of file as the last error it
      is at the end of the file. */
  lemma {:induction false} LiveFromHead(log: Bytes, turns: seq<LiveTurn>, hs: seq<LiveHead>, ns: seq<nat>,
                                        chunks: seq<Bytes>, m: nat)
    requires LiveRounds(log, turns, hs, ns, chunks) && m < |hs|
    ensures hs[m].pos <= |hs[m].file| && (hs[m].err.Eof? ==> hs[m].pos == |hs[m].file|)
    ensures Live(log, 0, NoError, turns) == Ahead(hs[m].sent, Live(hs[m].file, hs[m].pos, hs[m].err, turns[m..]))
  {
    hide GoesOn, Live;
    if m == 0 {
      assert turns[0..] == turns;
      assert [] + Live(log, 0, NoError, turns).sent == Live(log, 0, NoError, turns).sent;
    } else {
      LiveFromHead(log, turns, hs, ns, chunks, m - 1);
      assert GoesOn(hs[m - 1], turns[m - 1], ns[m - 1], chunks[m - 1], hs[m]);
      assert turns[m - 1..][0] == turns[m - 1] && turns[m - 1..][1..] == turns[m..];
      OneRound(hs[m - 1], turns[m - 1..], ns[m - 1], chunks[m - 1], hs[m]);
    }
  }

  predicate NoReads(ns: seq<nat>, m: nat) { forall i :: 0 <= i < m && i < |ns| ==> ns[i] == 0 }

  /** The last read before turn m is the last of turn i, and hs[m] has its error. */
  ghost predicate LastReadIn(turns: seq<LiveTurn>, hs: seq<LiveHead>, ns: seq<nat>, i: nat, m: nat) {
    && i < m < |hs| && m <= |ns| && m <= |turns| && 0 < ns[i] <= |turns[i].wakes|
    && (forall k :: i < k < m ==> ns[k] == 0)
    && turns[i].wakes[ns[i] - 1].Woken?
    && var file := FileAt(hs[i], turns[i].wakes, ns[i] - 1);
       hs[i].pos <= |file| && hs[m].err == ReadError(file, hs[i].pos, turns[i].wakes[ns[i] - 1].fault)
  }

  /** The error that enters a turn is that of the last read of the call, whatever has been sent since; before any
      read it is the nil left by opening the file. */
  lemma {:induction false} ErrorOfTheLastRead(log: Bytes, turns: seq<LiveTurn>, hs: seq<LiveHead>, ns: seq<nat>,
                                              chunks: seq<Bytes>, m: nat)
    requires LiveRounds(log, turns, hs, ns, chunks) && m < |hs|
    ensures (NoReads(ns, m) && hs[m].err == NoError) || exists i: nat :: LastReadIn(turns, hs, ns, i, m)
  {
    hide ReadError, ReadBytes, FileAt;
    if m > 0 {
      ErrorOfTheLastRead(log, turns, hs, ns, chunks, m - 1);
      assert GoesOn(hs[m - 1], turns[m - 1], ns[m - 1], chunks[m - 1], hs[m]);
      if ns[m - 1] > 0 {
        assert LastReadIn(turns, hs, ns, m - 1, m);
      } else {
        var l: nat := m - 1;
        if i: nat :| LastReadIn(turns, hs, ns, i, l) {
          assert LastReadIn(turns, hs, ns, i, m);
        }
      }
    }
  }

  /** The ordinary end of a live stream: once it has read up to the end of the file and sent all of it, and its
      further turns find no watcher at their first TryLock, the call is Complete, with the whole log sent, if and
      only if one of those turns finds WatcherLock free at the second. */
  lemma EofThenIdle(log: Bytes, turns: seq<LiveTurn>, hs: seq<LiveHead>, ns: seq<nat>, chunks: seq<Bytes>)
    requires LiveRounds(log, turns, hs, ns, chunks) && hs[|hs| - 1].err.Eof?
    requires forall i :: |hs| - 1 <= i < |turns| ==> IdleTurn(turns[i])
    ensures var s, h := Live(log, 0, NoError, turns), hs[|hs| - 1];
            && s == Stream(s.out, h.sent, h.file, h.pos, []) && Flatten(s.sent) == s.file
            && (s.out == Complete <==> SomeLockFree(turns[|hs| - 1..]))
            && (s.out == StillStreaming <==> !SomeLockFree(turns[|hs| - 1..]))
  {
    hide Live, GoesOn;
    var m := |hs| - 1;
    LiveFromHead(log, turns, hs, ns, chunks, m);
    IdleTurnsExactly(hs[m].file, hs[m].pos, hs[m].err, turns[m..]);
    assert hs[m].sent + [] == hs[m].sent;
    LiveIsExactPrefix(log, 0, NoError, turns);
    assert hs[m].file[0..|hs[m].file|] == hs[m].file;
  }

  /** The simplest such call: one read of a log shorter than the buffer, while the watcher works. */
  lemma ShortLogThenIdle(log: Bytes, idle: seq<LiveTurn>)
    requires 0 < |log| < CHUNK && forall i :: 0 <= i < |idle| ==> IdleTurn(idle[i])
    ensures var s := Live(log, 0, NoError, [LiveTurn(false, [Woken([], None)], false, true)] + idle);
            s == Stream(if SomeLockFree(idle) then Complete else StillStreaming, [log], log, |log|, [])
  {
    var first := LiveTurn(false, [Woken([], None)], false, true);
    var turns := [first] + idle;
    assert log + [] == log && ReadBytes(log, 0, None) == log;
    assert Await(log, 0, NoError, first.wakes) == Gate(true, log, log, Eof);
    assert turns[1..] == idle;
    IdleTurnsExactly(log, |log|, Eof, idle);
  }

  /** The turn read this chunk and its Send worked. */
  ghost predicate LiveSentBy(turns: seq<LiveTurn>, chunks: seq<Bytes>, i: nat, chunk: Bytes) {
    i < |turns| && i < |chunks| && chunk == chunks[i] != [] && turns[i].sendOk && !turns[i].cancelled
  }

  ghost predicate LiveSentBefore(turns: seq<LiveTurn>, chunks: seq<Bytes>, n: nat, chunk: Bytes) {
    exists i: nat :: i < n && LiveSentBy(turns, chunks, i, chunk)
  }

  lemma {:induction false} EveryLiveChunk(log: Bytes, turns: seq<LiveTurn>, hs: seq<LiveHead>, ns: seq<nat>,
                                          chunks: seq<Bytes>, n: nat, c: nat)
    requires LiveRounds(log, turns, hs, ns, chunks) && n < |hs| && c < |hs[n].sent|
    ensures LiveSentBefore(turns, chunks, n, hs[n].sent[c])
  {
    hide Inner;
    if n > 0 {
      assert GoesOn(hs[n - 1], turns[n - 1], ns[n - 1], chunks[n - 1], hs[n]);
      if c < |hs[n - 1].sent| {
        EveryLiveChunk(log, turns, hs, ns, chunks, n - 1, c);
        assert hs[n].sent[c] == hs[n - 1].sent[c];
      } else {
        assert LiveSentBy(turns, chunks, n - 1, hs[n].sent[c]);
      }
    }
  }

  /** How the running-job branch ends. Each chunk counted as sent was read by a turn whose Send worked. The call is
      cancelled if and only if the turn that ends it found the context done; otherwise what that turn's inner loop
      got decides, and its bytes are not sent: another error fails the call; end of file with WatcherLock free makes
      it Complete; and it fails on a Send if and only if neither applies, there are bytes, and their Send fails. */
  lemma LiveEndsExactly(log: Bytes, turns: seq<LiveTurn>)
    returns (hs: seq<LiveHead>, ns: seq<nat>, chunks: seq<Bytes>, r: nat, last: Gate)
    ensures LiveRounds(log, turns, hs, ns, chunks)
    ensures var s, n := Live(log, 0, NoError, turns), |hs| - 1;
      && s.sent == hs[n].sent
      && (forall c :: 0 <= c < |s.sent| ==> LiveSentBefore(turns, chunks, n, s.sent[c]))
      && (s.out.Canceled? <==> n < |turns| && turns[n].cancelled)
      && (n < |turns| && !turns[n].cancelled ==>
            && Inner(hs[n], turns[n].wakes, r, last) && s.unsent == last.chunk
            && (s.out.StillStreaming? <==> !last.left)
            && (s.out.ReadFailed? <==> last.left && last.err.OtherError?)
            && (s.out.Complete? <==> last.left && last.err.Eof? && turns[n].watcherGone)
            && (s.out.SendFailed? <==> last.left && !last.err.OtherError? && !(last.err.Eof? && turns[n].watcherGone)
                                       && last.chunk != [] && !turns[n].sendOk))
  {
    hide LiveSentBefore, GoesOn, Inner;
    hs, ns, chunks := LiveByTurns(log, turns);
    var s, n := Live(log, 0, NoError, turns), |hs| - 1;
    r, last := 0, Gate(false, log, [], NoError);
    if n < |turns| && !turns[n].cancelled {
      r, last :| Inner(hs[n], turns[n].wakes, r, last) && s == Stream(s.out, hs[n].sent, last.file, hs[n].pos, last.chunk)
        && (if !last.left then s.out == StillStreaming
            else if last.err.OtherError? then s.out == ReadFailed
            else if last.err.Eof? && turns[n].watcherGone then s.out == Complete
            else last.chunk != [] && !turns[n].sendOk && s.out == SendFailed(false));
    }
    forall c | 0 <= c < |s.sent| ensures LiveSentBefore(turns, chunks, n, s.sent[c]) {
      EveryLiveChunk(log, turns, hs, ns, chunks, n, c);
    }
  }
}
