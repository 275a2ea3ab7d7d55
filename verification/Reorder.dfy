/** Frames that arrive out of order: what a bounded reorder window accepts, and what it hands over. */
module Reorder {
  import opened Records

  const WINDOW := 8
  const MAX_FRAMES := 8
  const MAX_PAYLOAD := 16 * 1024
  const MAX_BYTES := 128 * 1024

  /** A payload is opaque but for its size and for what a cipher makes of it. */
  datatype Content = Handshake(peer: Id) | Sealed(key: Id, nonce: nat, plaintext: nat) | Junk(bits: nat)

  datatype Packet = Packet(size: nat, content: Content)

  datatype Frame = Frame(sequence: int, packet: Packet)

  /** Everything that has been accepted so far, by sequence number. */
  type Arrived = map<int, Packet>

  function KeysFrom(a: Arrived, from: int): set<int> { set k | k in a && from <= k }

  /** The first sequence number at or after `from` that has not arrived. */
  function FirstGap(a: Arrived, from: int): (g: int)
    ensures from <= g && g !in a && forall k :: from <= k < g ==> k in a
    decreases |KeysFrom(a, from)|
  {
    if from !in a then from
    else
      assert KeysFrom(a, from) == KeysFrom(a, from + 1) + {from};
      FirstGap(a, from + 1)
  }

  function Next(a: Arrived): (g: int)
    ensures 1 <= g
  {
    FirstGap(a, 1)
  }

  lemma NextIs(a: Arrived, g: int)
    requires 1 <= g && g !in a && forall k :: 1 <= k < g ==> k in a
    ensures Next(a) == g
  {
  }

  /** The packets 1, 2, ... up to the first that is missing. */
  function Delivered(a: Arrived): seq<Packet> {
    seq(Next(a) - 1, i requires 0 <= i < Next(a) - 1 => a[i + 1])
  }

  /** The contract of every receiver: new, not too far ahead, and of a size that a frame may have. */
  predicate Acceptable(a: Arrived, f: Frame, minimum: nat) {
    && 1 <= f.sequence && f.sequence !in a && f.sequence <= Next(a) + WINDOW
    && minimum <= f.packet.size <= MAX_PAYLOAD
  }

  function Add(a: Arrived, f: Frame): Arrived { a[f.sequence := f.packet] }

  /** A whole trace of arrivals: what has been accepted, and how many frames before the first misfit. */
  function Feed(a: Arrived, frames: seq<Frame>, minimum: nat): (r: (Arrived, nat))
    ensures r.1 <= |frames|
    ensures r.1 < |frames| ==> !Acceptable(r.0, frames[r.1], minimum)
    decreases |frames|
  {
    if frames == [] || !Acceptable(a, frames[0], minimum) then (a, 0)
    else
      var (b, n) := Feed(Add(a, frames[0]), frames[1..], minimum);
      (b, n + 1)
  }

  /** Feeding one more frame after a trace that was accepted whole. */
  lemma {:induction false} FeedOneMore(a: Arrived, frames: seq<Frame>, f: Frame, minimum: nat)
    requires Feed(a, frames, minimum).1 == |frames|
    ensures var b := Feed(a, frames, minimum).0;
            Feed(a, frames + [f], minimum) == if Acceptable(b, f, minimum) then (Add(b, f), |frames| + 1)
                else (b, |frames|)
    decreases |frames|
  {
    if frames == [] {
      assert ([f])[1..] == [];
    } else {
      FeedOneMore(Add(a, frames[0]), frames[1..], f, minimum);
      assert (frames + [f])[1..] == frames[1..] + [f];
    }
  }

  /** Pairing refuses an empty payload that a session would take, so the two kinds of receiver tell a trace apart
      exactly when a session would take an empty frame of it. */
  lemma {:induction false} ReceiversAgree(a: Arrived, frames: seq<Frame>)
    ensures Feed(a, frames, 0) == Feed(a, frames, 1)
            <==> forall i :: 0 <= i < Feed(a, frames, 0).1 ==> 1 <= frames[i].packet.size
    decreases |frames|
  {
    if frames != [] && Acceptable(a, frames[0], 0) {
      var rest := frames[1..];
      ReceiversAgree(Add(a, frames[0]), rest);
      var n := Feed(Add(a, frames[0]), rest, 0).1;
      assert Feed(a, frames, 0).1 == n + 1;
      assert forall i :: 0 <= i < n ==> frames[i + 1] == rest[i];
      if forall i :: 0 <= i < n + 1 ==> 1 <= frames[i].packet.size {
        assert forall i :: 0 <= i < n ==> 1 <= rest[i].packet.size;
      } else if 1 <= frames[0].packet.size {
        var i :| 0 <= i < n + 1 && frames[i].packet.size == 0;
        assert rest[i - 1].packet.size == 0;
      }
    }
  }

  // ----- capacity

  /** The bytes held for a stretch of sequence numbers. */
  function Total(m: Arrived, lo: int, hi: int): nat
    decreases hi - lo
  {
    if hi <= lo then 0 else (if lo in m then m[lo].size else 0) + Total(m, lo + 1, hi)
  }

  lemma {:induction false} TotalAdd(m: Arrived, lo: int, hi: int, k: int, p: Packet)
    requires k !in m
    ensures Total(m[k := p], lo, hi) == Total(m, lo, hi) + (if lo <= k < hi then p.size else 0)
    decreases hi - lo
  {
    if lo < hi { TotalAdd(m, lo + 1, hi, k, p); }
  }

  lemma TotalRemove(m: Arrived, lo: int, hi: int, k: int)
    requires k in m && lo <= k < hi
    ensures Total(m - {k}, lo, hi) == Total(m, lo, hi) - m[k].size
  {
    assert m == (m - {k})[k := m[k]];
    TotalAdd(m - {k}, lo, hi, k, m[k]);
  }

  lemma {:induction false} TotalEmpty(lo: int, hi: int)
    ensures Total(map[], lo, hi) == 0
    decreases hi - lo
  {
    if lo < hi { TotalEmpty(lo + 1, hi); }
  }

  lemma {:induction false} TotalEnd(m: Arrived, lo: int, hi: int)
    requires lo <= hi && hi !in m
    ensures Total(m, lo, hi + 1) == Total(m, lo, hi)
    decreases hi - lo
  {
    if lo < hi { TotalEnd(m, lo + 1, hi); }
  }

  lemma {:induction false} TotalBound(m: Arrived, lo: int, hi: int)
    requires lo <= hi && forall k :: k in m ==> m[k].size <= MAX_PAYLOAD
    ensures Total(m, lo, hi) <= MAX_PAYLOAD * (hi - lo)
    decreases hi - lo
  {
    if lo < hi { TotalBound(m, lo + 1, hi); }
  }

  function Range(lo: int, hi: int): (r: set<int>)
    ensures forall k :: k in r <==> lo <= k < hi
    ensures |r| == if lo <= hi then hi - lo else 0
    decreases hi - lo
  {
    if hi <= lo then {} else Range(lo + 1, hi) + {lo}
  }

  lemma SubsetSize(a: set<int>, b: set<int>)
    requires a <= b
    ensures |a| <= |b|
  {
    assert b == a + (b - a);
  }

  /** With eight numbers in the window and one of them still to come, neither the count of buffered frames
      nor their bytes can stand in its way. */
  lemma CapacityNeverBinds(pending: Arrived, next: int, f: Frame)
    requires forall k :: k in pending ==> next < k <= next + WINDOW && pending[k].size <= MAX_PAYLOAD
    requires f.sequence !in pending && next < f.sequence <= next + WINDOW && f.packet.size <= MAX_PAYLOAD
    ensures |pending| < MAX_FRAMES
    ensures Total(pending, next + 1, next + WINDOW + 1) + f.packet.size <= MAX_BYTES
  {
    var room := Range(next + 1, next + WINDOW + 1);
    SubsetSize(pending.Keys, room - {f.sequence});
    assert |pending| == |pending.Keys|;
    var full := pending[f.sequence := f.packet];
    TotalAdd(pending, next + 1, next + WINDOW + 1, f.sequence, f.packet);
    TotalBound(full, next + 1, next + WINDOW + 1);
  }

  // ----- completeness

  /** Frame s comes after every frame up to s - 9. */
  ghost predicate InWindow(frames: seq<Frame>, i: nat)
    requires i < |frames|
  {
    forall t :: 1 <= t <= frames[i].sequence - 9 ==> SentBefore(frames, i, t)
  }

  ghost predicate SentBefore(frames: seq<Frame>, i: nat, t: int)
    requires i <= |frames|
  {
    exists j :: 0 <= j < i && frames[j].sequence == t
  }

  /** Frames 1 to n, each once, in an order that the window can undo. */
  ghost predicate Windowed(frames: seq<Frame>) {
    && (forall i :: 0 <= i < |frames| ==> 1 <= frames[i].sequence && frames[i].packet.size <= 16_384)
    && (forall i, j :: 0 <= i < j < |frames| ==> frames[i].sequence != frames[j].sequence)
    && (forall i :: 0 <= i < |frames| ==> InWindow(frames, i))
  }

  /** The accepted frames are exactly the first `n` of the trace. */
  ghost predicate HoldsSo(a: Arrived, frames: seq<Frame>, n: nat)
    requires n <= |frames|
  {
    && (forall j :: 0 <= j < n ==> frames[j].sequence in a && a[frames[j].sequence] == frames[j].packet)
    && (forall k :: k in a ==> SentBefore(frames, n, k))
  }

  /** What a frame has to have before it is exactly what the window asks. */
  lemma FitsInWindow(a: Arrived, frames: seq<Frame>, i: nat)
    requires i < |frames| && HoldsSo(a, frames, i)
    requires 1 <= frames[i].sequence && frames[i].packet.size <= MAX_PAYLOAD
    ensures Acceptable(a, frames[i], 0) <==> InWindow(frames, i) && !SentBefore(frames, i, frames[i].sequence)
  {
    var s := frames[i].sequence;
    if InWindow(frames, i) {
      forall t | 1 <= t <= s - WINDOW - 1 ensures t in a { assert SentBefore(frames, i, t); }
      assert Next(a) >= s - WINDOW;
    }
    if s <= Next(a) + WINDOW {
      forall t | 1 <= t <= s - WINDOW - 1 ensures SentBefore(frames, i, t) { assert t in a; }
    }
  }

  lemma {:induction false} FeedHolds(a: Arrived, frames: seq<Frame>, i: nat)
    requires i <= |frames| && HoldsSo(a, frames, i)
    requires forall k :: 0 <= k < |frames| ==> 1 <= frames[k].sequence && frames[k].packet.size <= MAX_PAYLOAD
    ensures var (b, n) := Feed(a, frames[i..], 0);
            && HoldsSo(b, frames, i + n)
            && (n == |frames| - i <==> forall k :: i <= k < |frames| ==>
                  InWindow(frames, k) && !SentBefore(frames, k, frames[k].sequence))
    decreases |frames| - i
  {
    if i < |frames| {
      FitsInWindow(a, frames, i);
      var f := frames[i];
      assert frames[i..][0] == f && frames[i..][1..] == frames[i + 1..];
      hide Acceptable;
      if Acceptable(a, f, 0) {
        HoldsOneMore(a, frames, i);
        hide HoldsSo, InWindow, SentBefore;
        FeedHolds(Add(a, f), frames, i + 1);
      }
    }
  }

  lemma HoldsOneMore(a: Arrived, frames: seq<Frame>, i: nat)
    requires i < |frames| && HoldsSo(a, frames, i) && Acceptable(a, frames[i], 0)
    ensures HoldsSo(Add(a, frames[i]), frames, i + 1)
  {
    assert forall k :: SentBefore(frames, i, k) ==> SentBefore(frames, i + 1, k);
    assert SentBefore(frames, i + 1, frames[i].sequence);
  }

  /** A trace is accepted whole exactly when no number comes twice and each frame comes within the
      window. */
  lemma AcceptedIsWindowed(frames: seq<Frame>)
    requires forall k :: 0 <= k < |frames| ==> 1 <= frames[k].sequence && frames[k].packet.size <= MAX_PAYLOAD
    ensures Feed(map[], frames, 0).1 == |frames| <==> Windowed(frames)
    ensures HoldsSo(Feed(map[], frames, 0).0, frames, Feed(map[], frames, 0).1)
  {
    FeedHolds(map[], frames, 0);
    assert frames[0..] == frames;
    if Windowed(frames) {
      forall k | 0 <= k < |frames| ensures InWindow(frames, k) && !SentBefore(frames, k, frames[k].sequence) {}
    }
    if forall k :: 0 <= k < |frames| ==> InWindow(frames, k) && !SentBefore(frames, k, frames[k].sequence) {
      forall i, j | 0 <= i < j < |frames| ensures frames[i].sequence != frames[j].sequence {
        assert !SentBefore(frames, j, frames[j].sequence);
      }
    }
  }

  /** n different numbers between 1 and n are all of them. */
  lemma {:induction false} AllArrive(frames: seq<Frame>, n: nat)
    requires |frames| == n
    requires forall i :: 0 <= i < n ==> 1 <= frames[i].sequence <= n
    requires forall i, j :: 0 <= i < j < n ==> frames[i].sequence != frames[j].sequence
    ensures forall k :: 1 <= k <= n ==> SentBefore(frames, n, k)
  {
    var seen := Numbers(frames);
    NumbersSize(frames);
    SubsetSize(seen, Range(1, n + 1));
    assert Range(1, n + 1) == seen + (Range(1, n + 1) - seen);
    assert |Range(1, n + 1) - seen| == 0;
    forall k | 1 <= k <= n ensures SentBefore(frames, n, k) { assert k in Range(1, n + 1); assert k in seen; }
  }

  function Numbers(frames: seq<Frame>): set<int> { set i | 0 <= i < |frames| :: frames[i].sequence }

  lemma {:induction false} NumbersSize(frames: seq<Frame>)
    requires forall i, j :: 0 <= i < j < |frames| ==> frames[i].sequence != frames[j].sequence
    ensures |Numbers(frames)| == |frames|
    decreases |frames|
  {
    if frames == [] {
      assert Numbers(frames) == {};
    } else {
      var last := |frames| - 1;
      var before := frames[..last];
      NumbersSize(before);
      NumbersGrow(frames);
      assert forall i :: 0 <= i < last ==> before[i].sequence != frames[last].sequence;
      hide Numbers;
    }
  }

  lemma NumbersGrow(frames: seq<Frame>)
    requires 0 < |frames|
    ensures Numbers(frames) == Numbers(frames[..|frames| - 1]) + {frames[|frames| - 1].sequence}
  {
    var last := |frames| - 1;
    var before := frames[..last];
    forall k | k in Numbers(before) ensures k in Numbers(frames) {
      var i :| 0 <= i < last && before[i].sequence == k;
      assert frames[i].sequence == k;
    }
    assert frames[last].sequence in Numbers(frames);
    forall k | k in Numbers(frames) && k != frames[last].sequence ensures k in Numbers(before) {
      var i :| 0 <= i < |frames| && frames[i].sequence == k;
      assert before[i].sequence == k;
    }
  }

  /** Frames 1 to n in any order within the window are all accepted, nothing is left over, and they are
      handed over in order. */
  lemma WindowedIsComplete(frames: seq<Frame>)
    requires Windowed(frames) && forall i :: 0 <= i < |frames| ==> frames[i].sequence <= |frames|
    ensures var (a, n) := Feed(map[], frames, 0);
            && n == |frames| && Next(a) == |frames| + 1 && a.Keys == Range(1, |frames| + 1)
            && |Delivered(a)| == |frames|
            && (forall i :: 0 <= i < |frames| ==> Delivered(a)[frames[i].sequence - 1] == frames[i].packet)
  {
    var (a, n) := Feed(map[], frames, 0);
    AcceptedIsWindowed(frames);
    AllHeld(a, frames);
    hide Feed, Next, Windowed, HoldsSo;
    NextIs(a, |frames| + 1);
    HeldIsPacket(a, frames);
  }

  lemma AllHeld(a: Arrived, frames: seq<Frame>)
    requires Windowed(frames) && HoldsSo(a, frames, |frames|)
    requires forall i :: 0 <= i < |frames| ==> 1 <= frames[i].sequence <= |frames|
    ensures a.Keys == Range(1, |frames| + 1)
  {
    AllArrive(frames, |frames|);
    forall k | 1 <= k <= |frames| ensures k in a { assert SentBefore(frames, |frames|, k); }
    forall k | k in a ensures 1 <= k <= |frames| { assert SentBefore(frames, |frames|, k); }
  }

  lemma HeldIsPacket(a: Arrived, frames: seq<Frame>)
    requires HoldsSo(a, frames, |frames|)
    ensures forall i :: 0 <= i < |frames| ==> frames[i].sequence in a && a[frames[i].sequence] == frames[i].packet
  {
  }

  // ----- counter nonces

  /** What a channel makes of its packets in order: first the handshake, then each packet opened with the
      next nonce. */
  function OpenedInOrder(peer: Id, key: Id, packets: seq<Packet>): Option<seq<nat>> {
    if packets == [] then Some([])
    else
      var before := OpenedInOrder(peer, key, packets[..|packets| - 1]);
      var content := packets[|packets| - 1].content;
      if before.None? then None
      else if |packets| == 1 then (if content == Handshake(peer) then Some([]) else None)
      else if content.Sealed? && content.key == key && content.nonce == |packets| - 2
      then Some(before.value + [content.plaintext]) else None
  }

  /** One packet more: the first must be the handshake, a later one sealed under the next nonce. */
  lemma OpensOneMore(peer: Id, key: Id, packets: seq<Packet>, n: nat)
    requires n < |packets|
    ensures var before, content := OpenedInOrder(peer, key, packets[..n]), packets[n].content;
            OpenedInOrder(peer, key, packets[..n + 1]) ==
              if before.None? then None
              else if n == 0 then (if content == Handshake(peer) then before else None)
              else if content.Sealed? && content.key == key && content.nonce == n - 1
              then Some(before.value + [content.plaintext]) else None
  {
    assert packets[..n + 1][..n] == packets[..n];
  }

  /** Once a packet does not open nothing after it does. */
  lemma {:induction false} OpenedPrefix(peer: Id, key: Id, packets: seq<Packet>, n: nat)
    requires n <= |packets| && OpenedInOrder(peer, key, packets).Some?
    ensures OpenedInOrder(peer, key, packets[..n]).Some?
    decreases |packets|
  {
    if n == |packets| {
      assert packets[..n] == packets;
    } else {
      var before := packets[..|packets| - 1];
      OpenedPrefix(peer, key, before, n);
      assert before[..n] == packets[..n];
    }
  }

  /** The packets of an honest sender: its handshake message, then its plaintexts under nonces 0, 1, .... */
  ghost predicate HonestPackets(peer: Id, key: Id, plaintexts: seq<nat>, packets: seq<Packet>) {
    && |packets| == |plaintexts| + 1
    && packets[0].content == Handshake(peer)
    && forall i :: 0 <= i < |plaintexts| ==> packets[i + 1].content == Sealed(key, i, plaintexts[i])
  }

  lemma {:induction false} HonestOpens(peer: Id, key: Id, plaintexts: seq<nat>, packets: seq<Packet>)
    requires HonestPackets(peer, key, plaintexts, packets)
    ensures OpenedInOrder(peer, key, packets) == Some(plaintexts)
    decreases |packets|
  {
    var before := packets[..|packets| - 1];
    if |plaintexts| == 0 {
      assert before == [];
    } else {
      var last := |plaintexts| - 1;
      HonestOpens(peer, key, plaintexts[..last], before);
      assert plaintexts[..last] + [plaintexts[last]] == plaintexts;
    }
  }
}
