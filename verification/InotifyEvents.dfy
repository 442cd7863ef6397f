/** inotify records as the kernel lays them out in a read buffer, in little-endian order. */
module InotifyEvents {
  import opened Base

  const U32_LIMIT: int := 0x1_0000_0000
  const SIZEOF_EVENT: int := 16
  const IN_CLOSE_WRITE: int := 0x8

  type uint32 = x: int | 0 <= x < U32_LIMIT

  type Name = s: seq<byte> | |s| < U32_LIMIT

  datatype Event = Event(wd: uint32, mask: uint32, cookie: uint32, name: Name)

  // mask & IN_CLOSE_WRITE == IN_CLOSE_WRITE
  predicate ClosesWrite(mask: int) { mask / IN_CLOSE_WRITE % 2 == 1 }

  /** It is bit 3 of the mask that reports the close, whatever the other bits are. */
  lemma CloseBit(high: nat, bit: nat, low: nat)
    requires bit < 2 && low < 8
    ensures ClosesWrite(16 * high + 8 * bit + low) <==> bit == 1
  {
    assert (16 * high + 8 * bit + low) / 8 == 2 * high + bit;
  }

  function U32Bytes(n: uint32): (s: seq<byte>)
    ensures |s| == 4
  {
    [(n % 256) as byte, (n / 256 % 256) as byte, (n / 65536 % 256) as byte, (n / 16777216) as byte]
  }

  function U32At(s: seq<byte>, i: nat): uint32
    requires i + 4 <= |s|
  {
    s[i] as int + 256 * (s[i + 1] as int) + 65536 * (s[i + 2] as int) + 16777216 * (s[i + 3] as int)
  }

  /** Reading back a field that was laid out gives the field, wherever it sits. */
  lemma U32RoundTrip(pre: seq<byte>, n: uint32, post: seq<byte>)
    ensures U32At(pre + U32Bytes(n) + post, |pre|) == n
  {
    var s := pre + U32Bytes(n) + post;
    assert forall k :: 0 <= k < 4 ==> s[|pre| + k] == U32Bytes(n)[k];
  }

  /** A field of a slice is the field of the whole. */
  lemma U32InSlice(s: seq<byte>, o: nat, n: nat, i: nat)
    requires o + i + 4 <= n <= |s|
    ensures U32At(s[o..n], i) == U32At(s, o + i)
  {
  }

  function Encode(e: Event): (s: seq<byte>)
    ensures |s| == SIZEOF_EVENT + |e.name|
  {
    U32Bytes(e.wd) + U32Bytes(e.mask) + U32Bytes(e.cookie) + U32Bytes(|e.name|) + e.name
  }

  function EncodeAll(es: seq<Event>): seq<byte> {
    if es == [] then [] else Encode(es[0]) + EncodeAll(es[1..])
  }

  /** The two header fields the watcher reads, found at the head of an encoded record. */
  lemma HeaderRoundTrip(e: Event, rest: seq<byte>)
    ensures U32At(Encode(e) + rest, 4) == e.mask && U32At(Encode(e) + rest, 12) == |e.name|
  {
    var s := Encode(e) + rest;
    U32RoundTrip(U32Bytes(e.wd), e.mask, U32Bytes(e.cookie) + U32Bytes(|e.name|) + e.name + rest);
    assert s == U32Bytes(e.wd) + U32Bytes(e.mask) + (U32Bytes(e.cookie) + U32Bytes(|e.name|) + e.name + rest);
    U32RoundTrip(U32Bytes(e.wd) + U32Bytes(e.mask) + U32Bytes(e.cookie), |e.name|, e.name + rest);
    assert s == U32Bytes(e.wd) + U32Bytes(e.mask) + U32Bytes(e.cookie) + U32Bytes(|e.name|) + (e.name + rest);
  }

  /** The other two header fields. */
  lemma WatchAndCookieRoundTrip(e: Event, rest: seq<byte>)
    ensures U32At(Encode(e) + rest, 0) == e.wd && U32At(Encode(e) + rest, 8) == e.cookie
  {
    var s := Encode(e) + rest;
    U32RoundTrip([], e.wd, U32Bytes(e.mask) + U32Bytes(e.cookie) + U32Bytes(|e.name|) + e.name + rest);
    assert s == [] + U32Bytes(e.wd) + (U32Bytes(e.mask) + U32Bytes(e.cookie) + U32Bytes(|e.name|) + e.name + rest);
    U32RoundTrip(U32Bytes(e.wd) + U32Bytes(e.mask), e.cookie, U32Bytes(|e.name|) + e.name + rest);
    assert s == U32Bytes(e.wd) + U32Bytes(e.mask) + U32Bytes(e.cookie) + (U32Bytes(|e.name|) + e.name + rest);
  }

  lemma RecordRoundTrip(e: Event, rest: seq<byte>, f: Event, more: seq<byte>)
    requires Encode(e) + rest == Encode(f) + more
    ensures e == f && rest == more
  {
    hide U32At, U32Bytes;
    HeaderRoundTrip(e, rest);
    HeaderRoundTrip(f, more);
    WatchAndCookieRoundTrip(e, rest);
    WatchAndCookieRoundTrip(f, more);
    var s, n := Encode(e) + rest, SIZEOF_EVENT + |e.name|;
    assert e.name == s[SIZEOF_EVENT..n] == f.name;
    assert rest == s[n..] == more;
  }

  /** A buffer holds one list of events only: the bytes determine them. */
  lemma {:induction false} EncodeAllInjective(es: seq<Event>, fs: seq<Event>)
    requires EncodeAll(es) == EncodeAll(fs)
    ensures es == fs
  {
    hide Encode;
    if es != [] && fs != [] {
      RecordRoundTrip(es[0], EncodeAll(es[1..]), fs[0], EncodeAll(fs[1..]));
      EncodeAllInjective(es[1..], fs[1..]);
    }
  }

  lemma {:induction false} EncodeAllSplit(es: seq<Event>, m: nat)
    requires m <= |es|
    ensures EncodeAll(es) == EncodeAll(es[..m]) + EncodeAll(es[m..])
  {
    hide Encode;
    if m == 0 {
      assert es[0..] == es && EncodeAll(es[..0]) == [];
    } else {
      EncodeAllSplit(es[1..], m - 1);
      assert es[..m][1..] == es[1..][..m - 1] && es[1..][m - 1..] == es[m..];
      assert EncodeAll(es[..m]) == Encode(es[0]) + EncodeAll(es[1..][..m - 1]);
      assert Encode(es[0]) + (EncodeAll(es[1..][..m - 1]) + EncodeAll(es[m..]))
             == Encode(es[0]) + EncodeAll(es[1..][..m - 1]) + EncodeAll(es[m..]);
    }
  }

  /** The position of the first event that reports the writer's close, or the number of events. */
  function FirstClose(es: seq<Event>): (k: nat)
    ensures k <= |es|
    ensures k < |es| ==> ClosesWrite(es[k].mask)
    ensures forall i :: 0 <= i < k ==> !ClosesWrite(es[i].mask)
  {
    if es == [] || ClosesWrite(es[0].mask) then 0 else 1 + FirstClose(es[1..])
  }
}
