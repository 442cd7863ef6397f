/** The file watcher: the bounded wait for the file, the walk over a buffer of inotify records, and the
    read loop around it. Its locks are the subject of WatchLocks. */
module Watcher {
  import opened Base
  import opened InotifyEvents

  // ---------------------------------------------------------------- the buffer walk

  /** What the walk reads of an event. */
  datatype Header = Header(offset: nat, mask: uint32, len: uint32)

  /** The headers of the first n of es, at their true record boundaries. */
  function HeadersOf(es: seq<Event>, n: nat): (hs: seq<Header>)
    requires n <= |es|
    ensures |hs| == n
  {
    if n == 0 then []
    else HeadersOf(es, n - 1) + [Header(|EncodeAll(es[..n - 1])|, es[n - 1].mask, |es[n - 1].name|)]
  }

  /** How many events are looked at: up to and including the first close. */
  function Visited(es: seq<Event>): nat {
    if FirstClose(es) < |es| then FirstClose(es) + 1 else |es|
  }

  function WalkBroadcasts(es: seq<Event>): nat {
    if FirstClose(es) < |es| then 2 * FirstClose(es) + 12 else |es|
  }

  /** What a walk over these events must come to: whether it met a close, its broadcasts, and the headers
      seen, each at its true boundary. */
  ghost predicate WalkedRight(es: seq<Event>, closed: bool, broadcasts: nat, seen: seq<Header>) {
    (closed <==> FirstClose(es) < |es|) && broadcasts == WalkBroadcasts(es) && seen == HeadersOf(es, Visited(es))
  }

  /** One read's worth of records, walked in place. Arithmetic on the offset is that of uint32. */
  method WalkBuffer(ebuf: array<byte>, bytesread: int) returns (closed: bool, broadcasts: nat, seen: seq<Header>)
    requires SIZEOF_EVENT <= bytesread <= ebuf.Length < U32_LIMIT
    requires exists es :: ebuf[..bytesread] == EncodeAll(es)
    ensures forall es :: ebuf[..bytesread] == EncodeAll(es) ==> WalkedRight(es, closed, broadcasts, seen)
  {
    hide Encode, EncodeAll, U32At, U32Bytes, ClosesWrite, FirstClose, HeadersOf, Visited, WalkBroadcasts;
    ghost var es :| ebuf[..bytesread] == EncodeAll(es);
    closed, broadcasts, seen := false, 0, [];
    var offset: uint32 := 0;
    var remainingEvents := 0;
    assert es[..0] == [] && es[0..] == es;
    NoEvents();
    while offset <= bytesread - SIZEOF_EVENT
      invariant remainingEvents == broadcasts <= FirstClose(es)
      invariant offset == |EncodeAll(es[..remainingEvents])| <= bytesread
      invariant ebuf[offset..bytesread] == EncodeAll(es[remainingEvents..])
      invariant seen == HeadersOf(es, remainingEvents)
      decreases bytesread - offset
    {
      ghost var k := remainingEvents;
      RecordAt(ebuf[..], bytesread, es, k);
      OneMoreSeen(es, k);
      broadcasts := broadcasts + 1;
      var mask := U32At(ebuf[..], offset + 4);
      var len := U32At(ebuf[..], offset + 12);
      seen := seen + [Header(offset, mask, len)];
      if ClosesWrite(mask) {
        for i := 0 to remainingEvents + 10 + 1
          invariant broadcasts == remainingEvents + 1 + i
        {
          broadcasts := broadcasts + 1;
        }
        closed := true;
        ClosedHere(ebuf[..bytesread], es, k, broadcasts, seen);
        return;
      }
      offset := (offset + (SIZEOF_EVENT + len) % U32_LIMIT) % U32_LIMIT;
      remainingEvents := remainingEvents + 1;
    }
    NothingLeft(es[remainingEvents..]);
    NeverClosed(ebuf[..bytesread], es, broadcasts, seen);
  }

  /** Where record k begins there is room for a header, its fields are those of event k, and the next
      record begins where the walk's arithmetic says, without wrapping. */
  lemma RecordAt(s: seq<byte>, n: nat, es: seq<Event>, k: nat)
    requires n <= |s| < U32_LIMIT && k <= |es|
    requires var o := |EncodeAll(es[..k])|; o + SIZEOF_EVENT <= n && s[o..n] == EncodeAll(es[k..])
    ensures k < |es|
    ensures var o := |EncodeAll(es[..k])|;
            && U32At(s, o + 4) == es[k].mask && U32At(s, o + 12) == |es[k].name|
            && o + SIZEOF_EVENT + |es[k].name| <= n
            && |EncodeAll(es[..k + 1])| == o + SIZEOF_EVENT + |es[k].name|
            && s[o + SIZEOF_EVENT + |es[k].name|..n] == EncodeAll(es[k + 1..])
  {
    hide U32At, U32Bytes;
    var o := |EncodeAll(es[..k])|;
    assert es[k..] != [];
    var e, rest := es[k], EncodeAll(es[k + 1..]);
    assert es[k..][1..] == es[k + 1..];
    assert s[o..n] == Encode(e) + rest;
    HeaderRoundTrip(e, rest);
    U32InSlice(s, o, n, 4);
    U32InSlice(s, o, n, 12);
    EncodeAllSplit(es[..k + 1], k);
    assert es[..k + 1][..k] == es[..k] && es[..k + 1][k..] == [e];
    assert EncodeAll([e]) == Encode(e) + [];
    assert s[o + |Encode(e)|..n] == s[o..n][|Encode(e)|..] == rest;
  }

  lemma OnlyThese(s: seq<byte>, es: seq<Event>, closed: bool, broadcasts: nat, seen: seq<Header>)
    requires s == EncodeAll(es) && WalkedRight(es, closed, broadcasts, seen)
    ensures forall fs :: s == EncodeAll(fs) ==> WalkedRight(fs, closed, broadcasts, seen)
  {
    forall fs | s == EncodeAll(fs) ensures fs == es {
      EncodeAllInjective(fs, es);
    }
  }

  lemma OneMoreSeen(es: seq<Event>, k: nat)
    requires k < |es|
    ensures HeadersOf(es, k + 1) == HeadersOf(es, k) + [Header(|EncodeAll(es[..k])|, es[k].mask, |es[k].name|)]
    ensures k <= FirstClose(es) && !ClosesWrite(es[k].mask) ==> k < FirstClose(es)
  {
    hide EncodeAll, ClosesWrite;
  }

  lemma NeverClosed(s: seq<byte>, es: seq<Event>, broadcasts: nat, seen: seq<Header>)
    requires s == EncodeAll(es) && broadcasts == |es| <= FirstClose(es) && seen == HeadersOf(es, |es|)
    ensures forall fs :: s == EncodeAll(fs) ==> WalkedRight(fs, false, broadcasts, seen)
  {
    OnlyThese(s, es, false, broadcasts, seen);
  }

  lemma ClosedHere(s: seq<byte>, es: seq<Event>, k: nat, broadcasts: nat, seen: seq<Header>)
    requires s == EncodeAll(es) && k < |es| && k <= FirstClose(es) && ClosesWrite(es[k].mask)
    requires broadcasts == 2 * k + 12 && seen == HeadersOf(es, k + 1)
    ensures forall fs :: s == EncodeAll(fs) ==> WalkedRight(fs, true, broadcasts, seen)
  {
    OnlyThese(s, es, true, broadcasts, seen);
  }

  lemma NoEvents()
    ensures EncodeAll([]) == []
  {
  }

  lemma NothingLeft(es: seq<Event>)
    requires |EncodeAll(es)| < SIZEOF_EVENT
    ensures es == []
  {
  }

  // ---------------------------------------------------------------- the read loop

  // What one turn of the loop meets: a cancelled context, a failed read, a read too short for a record, or
  // a read of whole records (of none at all, when the watch has ended).
  datatype Turn = Cancelled | ReadFailed | PartialRead(data: seq<byte>) | Records(es: seq<Event>)

  datatype Exit = StillWatching | ContextDone | WatchEnded | WriterClosed

  predicate Fits(t: Turn, size: nat) {
    match t
    case PartialRead(data) => 0 < |data| < SIZEOF_EVENT && |data| <= size
    case Records(es) => |EncodeAll(es)| <= size
    case _ => true
  }

  predicate HasClose(es: seq<Event>) { exists i :: 0 <= i < |es| && ClosesWrite(es[i].mask) }

  /** The turn lets the loop go on: a read that failed, fell short, or brought events but no close. */
  predicate Passes(t: Turn) {
    match t
    case Cancelled => false
    case ReadFailed => true
    case PartialRead(_) => true
    case Records(es) => es != [] && !HasClose(es)
  }

  /** The events read in these turns. */
  function EventsIn(turns: seq<Turn>): nat {
    if turns == [] then 0 else (if turns[0].Records? then |turns[0].es| else 0) + EventsIn(turns[1..])
  }

  lemma {:induction false} OneTurnMore(turns: seq<Turn>, i: nat)
    requires i < |turns|
    ensures EventsIn(turns[..i + 1]) == EventsIn(turns[..i]) + if turns[i].Records? then |turns[i].es| else 0
  {
    if i == 0 {
      assert turns[..1] == [turns[0]] && turns[..0] == [];
      assert EventsIn([turns[0]][1..]) == 0;
    } else {
      OneTurnMore(turns[1..], i - 1);
      assert turns[..i + 1][1..] == turns[1..][..i] && turns[..i][1..] == turns[1..][..i - 1];
    }
  }

  lemma CloseFound(es: seq<Event>)
    ensures HasClose(es) <==> FirstClose(es) < |es|
  {
    if i :| 0 <= i < |es| && ClosesWrite(es[i].mask) { assert FirstClose(es) <= i; }
  }

  /** syscall.Read: the data goes to the front of the buffer, the rest of which keeps older bytes. */
  method ReadInto(ebuf: array<byte>, data: seq<byte>) returns (n: int)
    requires |data| <= ebuf.Length
    modifies ebuf
    ensures n == |data| && ebuf[..n] == data && ebuf[n..] == old(ebuf[n..])
  {
    n := 0;
    while n < |data|
      invariant 0 <= n <= |data| && ebuf[..n] == data[..n] && ebuf[n..] == old(ebuf[n..])
    {
      ebuf[n] := data[n];
      n := n + 1;
    }
  }

  /** The loop over a reused buffer, for the given turns. It goes through turn number used, the first that does not
      let it go on, and ends there: cancelled, at an empty read, or at a close. It broadcasts once for each event of
      the turns before, and 2k+12 times for a close that is event k of its read. The deferred broadcast of the
      watcher's exit comes on top. */
  method WatchLoop(ebuf: array<byte>, turns: seq<Turn>) returns (exit: Exit, broadcasts: nat, used: nat)
    requires SIZEOF_EVENT <= ebuf.Length < U32_LIMIT
    requires forall i :: 0 <= i < |turns| ==> Fits(turns[i], ebuf.Length)
    modifies ebuf
    ensures used <= |turns| && forall i :: 0 <= i < used ==> Passes(turns[i])
    ensures used < |turns| ==> !Passes(turns[used])
    ensures exit == StillWatching <==> used == |turns|
    ensures used < |turns| ==>
      && (exit == ContextDone <==> turns[used].Cancelled?)
      && (exit == WatchEnded <==> turns[used] == Records([]))
      && (exit == WriterClosed <==> turns[used].Records? && HasClose(turns[used].es))
    ensures broadcasts == EventsIn(turns[..used])
                          + if exit == WriterClosed then 2 * FirstClose(turns[used].es) + 12 else 0
  {
    hide HasClose, WalkedRight, EncodeAll;
    broadcasts, used := 0, 0;
    assert turns[..0] == [];
    while used < |turns|
      invariant used <= |turns| && forall i :: 0 <= i < used ==> Passes(turns[i])
      invariant broadcasts == EventsIn(turns[..used])
    {
      OneTurnMore(turns, used);
      match turns[used] {
        case Cancelled => return ContextDone, broadcasts, used;
        case ReadFailed =>
        case PartialRead(data) =>
          var n := ReadInto(ebuf, data);
        case Records(es) =>
          var n := ReadInto(ebuf, EncodeAll(es));
          EmptyRead(es);
          CloseFound(es);
          if n == 0 {
            return WatchEnded, broadcasts, used;
          }
          EnoughForOne(es);
          var closed, b, seen := WalkBuffer(ebuf, n);
          WalkResult(es, closed, b, seen);
          broadcasts := broadcasts + b;
          if closed {
            return WriterClosed, broadcasts, used;
          }
      }
      used := used + 1;
    }
    exit := StillWatching;
  }

  lemma EmptyRead(es: seq<Event>)
    ensures |EncodeAll(es)| == 0 <==> es == []
    ensures es == [] ==> !HasClose(es)
  {
  }

  lemma EnoughForOne(es: seq<Event>)
    requires es != []
    ensures |EncodeAll(es)| >= SIZEOF_EVENT
  {
  }

  lemma WalkResult(es: seq<Event>, closed: bool, broadcasts: nat, seen: seq<Header>)
    requires WalkedRight(es, closed, broadcasts, seen)
    ensures closed <==> HasClose(es)
    ensures broadcasts == if closed then 2 * FirstClose(es) + 12 else |es|
  {
    CloseFound(es);
  }

  // ---------------------------------------------------------------- the bounded wait

  datatype Stat = Present | Missing | Broken

  datatype WaitOutcome = Found | GaveUp | StatError | WaitCancelled

  /** WaitForFile: cancelled(i) and stat(i) are what cycle i meets. It ends at the first cycle that is
      cancelled or does not find the file missing, and after 199 looks at the latest. */
  method WaitForFile(cancelled: nat -> bool, stat: nat -> Stat) returns (r: WaitOutcome, i: nat)
    ensures 1 <= i <= 200
    ensures forall k :: 1 <= k < i ==> !cancelled(k) && stat(k) == Missing
    ensures r == if cancelled(i) then WaitCancelled
                 else if i == 200 then GaveUp
                 else if stat(i) == Present then Found
                 else StatError
    ensures r == StatError ==> stat(i) == Broken
  {
    i := 0;
    while true
      invariant i < 200
      invariant forall k :: 1 <= k <= i ==> !cancelled(k) && stat(k) == Missing
      decreases 200 - i
    {
      i := i + 1;
      if cancelled(i) {
        return WaitCancelled, i;
      }
      if i >= 200 {
        return GaveUp, i;
      }
      match stat(i) {
        case Missing =>
        case Broken => return StatError, i;
        case Present => return Found, i;
      }
    }
  }
}
