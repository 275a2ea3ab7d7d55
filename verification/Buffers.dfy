/** The three receivers: the companion's session channel, its pairing reader, and the controller's frame
    buffer with the pairing reader around it. */
module Buffers {
  import opened Records
  import opened Reorder

  /** What a buffer holds of everything that arrived: the frames after the first `next - 1`. */
  ghost predicate Buffered(pending: Arrived, bytes: int, next: int, arrived: Arrived) {
    && 1 <= next <= Next(arrived)
    && (forall k :: k in pending <==> k in arrived && next <= k)
    && (forall k :: k in pending ==> pending[k] == arrived[k] && k <= next + WINDOW && pending[k].size <= MAX_PAYLOAD)
    && bytes == Total(pending, next, next + WINDOW + 1)
  }

  /** While the next packet is missing, the rest of the window has room for whatever may still come. */
  lemma RoomFor(pending: Arrived, bytes: int, next: int, arrived: Arrived, f: Frame)
    requires Buffered(pending, bytes, next, arrived) && next !in pending
    requires next < f.sequence <= next + WINDOW && f.sequence !in pending && f.packet.size <= MAX_PAYLOAD
    ensures next == Next(arrived) && |pending| < MAX_FRAMES && bytes + f.packet.size <= MAX_BYTES
    ensures Buffered(pending[f.sequence := f.packet], bytes + f.packet.size, next, Add(arrived, f))
  {
    NextIs(arrived, next);
    TotalFrom(pending, next, next + WINDOW + 1);
    CapacityNeverBinds(pending, next, f);
    HoldsAhead(pending, bytes, next, arrived, f);
    hide Next, Total, Buffered;
  }

  /** A frame ahead of the missing one is held. */
  lemma HoldsAhead(pending: Arrived, bytes: int, next: int, arrived: Arrived, f: Frame)
    requires Buffered(pending, bytes, next, arrived) && next == Next(arrived)
    requires next < f.sequence <= next + WINDOW && f.sequence !in pending && f.packet.size <= MAX_PAYLOAD
    ensures Buffered(pending[f.sequence := f.packet], bytes + f.packet.size, next, Add(arrived, f))
  {
    AheadIsNotNext(arrived, f);
    hide Next, Total;
    TotalAdd(pending, next, next + WINDOW + 1, f.sequence, f.packet);
  }

  lemma AheadIsNotNext(arrived: Arrived, f: Frame)
    requires Next(arrived) < f.sequence
    ensures Next(Add(arrived, f)) == Next(arrived)
  {
    NextIs(Add(arrived, f), Next(arrived));
  }

  lemma TotalFrom(m: Arrived, lo: int, hi: int)
    requires lo !in m
    ensures Total(m, lo, hi) == Total(m, lo + 1, hi)
  {
  }

  /** The packet that was missing arrives: it is handed over, and the window moves on by one. */
  lemma NextArrives(pending: Arrived, bytes: int, next: int, arrived: Arrived, p: Packet)
    requires Buffered(pending, bytes, next, arrived) && next !in pending && p.size <= MAX_PAYLOAD
    ensures Buffered(pending, bytes, next + 1, Add(arrived, Frame(next, p)))
  {
    var after := Add(arrived, Frame(next, p));
    assert forall k :: 1 <= k < next + 1 ==> k in after;
    TotalEnd(pending, next, next + WINDOW + 1);
    assert Next(after) >= next + 1;
  }

  /** A buffered packet is handed over. */
  lemma NextTaken(pending: Arrived, bytes: int, next: int, arrived: Arrived)
    requires Buffered(pending, bytes, next, arrived) && next in pending
    ensures Buffered(pending - {next}, bytes - pending[next].size, next + 1, arrived)
  {
    TotalRemove(pending, next, next + WINDOW + 1, next);
    TotalEnd(pending - {next}, next, next + WINDOW + 1);
  }

  /** A fresh buffer. */
  lemma BufferedAtFirst()
    ensures Buffered(map[], 0, 1, map[]) && Next(map[]) == 1
  {
    TotalEmpty(1, 1 + WINDOW + 1);
  }

  /** What the checks on a frame's number and size ask is exactly what the contract asks. */
  lemma ChecksAreContract(pending: Arrived, bytes: int, next: int, arrived: Arrived, f: Frame)
    requires Buffered(pending, bytes, next, arrived) && next == Next(arrived)
    ensures next !in pending
    ensures Acceptable(arrived, f, 0)
            <==> next <= f.sequence && f.sequence !in pending && f.sequence - next <= WINDOW
                 && f.packet.size <= MAX_PAYLOAD
  {
  }

  lemma BufferedIsArrived(pending: Arrived, bytes: int, next: int, arrived: Arrived)
    requires Buffered(pending, bytes, next, arrived)
    ensures 1 <= next <= Next(arrived)
    ensures next in pending ==> next < Next(arrived) && next in arrived && pending[next] == arrived[next]
    ensures next !in pending ==> next == Next(arrived)
  {
    if next !in pending { NextIs(arrived, next); }
  }

  /** The packets of a contiguous stretch. */
  function Stretch(a: Arrived, lo: int, hi: int): seq<Packet>
    requires lo <= hi && forall k :: lo <= k < hi ==> k in a
  {
    seq(hi - lo, i requires 0 <= i < hi - lo => a[lo + i])
  }

  lemma DeliveredGrows(a: Arrived, b: Arrived)
    requires forall k :: k in a ==> k in b && b[k] == a[k]
    ensures Next(a) <= Next(b)
    ensures Delivered(b) == Delivered(a) + Stretch(b, Next(a), Next(b))
  {
    assert forall k :: 1 <= k < Next(a) ==> k in b;
  }

  // ----- the companion's session channel

  datatype Received = Accepted | Rejected | Broken

  class SecureChannel {
    var expectedIn: int
    var pending: Arrived
    var pendingBytes: int
    var established: bool
    var nonce: nat
    const peer: Id
    const key: Id
    ghost var arrived: Arrived
    ghost var plaintexts: seq<nat>

    /** Everything contiguous has been opened, in order. */
    ghost predicate Valid()
      reads this
    {
      && Buffered(pending, pendingBytes, expectedIn, arrived)
      && expectedIn == Next(arrived)
      && Reorder.OpenedInOrder(peer, key, Delivered(arrived)) == Some(plaintexts)
      && (established <==> 1 < expectedIn)
      && nonce == |plaintexts| == if established then expectedIn - 2 else 0
    }

    constructor (peer: Id, key: Id)
      ensures Valid() && arrived == map[] && plaintexts == []
    {
      BufferedAtFirst();
      expectedIn, pending, pendingBytes, established, nonce := 1, map[], 0, false, 0;
      this.peer, this.key := peer, key;
      arrived, plaintexts := map[], [];
    }

    /** One packet in order: the handshake first, then whatever the next nonce opens. */
    method ReceivePacket(packet: Packet) returns (ok: bool)
      requires established ==> 0 <= nonce
      modifies this`established, this`nonce, this`plaintexts
      ensures ok <==> if !old(established) then packet.content == Handshake(peer)
                      else packet.content.Sealed? && packet.content.key == key && packet.content.nonce == old(nonce)
      ensures ok && !old(established) ==> established && nonce == old(nonce) && plaintexts == old(plaintexts)
      ensures ok && old(established) ==> established && nonce == old(nonce) + 1
                                         && plaintexts == old(plaintexts) + [packet.content.plaintext]
      ensures !ok ==> established == old(established) && nonce == old(nonce) && plaintexts == old(plaintexts)
    {
      if !established {
        ok := packet.content == Handshake(peer);
        established := ok;
        return;
      }
      match packet.content
      case Sealed(k, n, plaintext) =>
        ok := k == key && n == nonce;
        if ok {
          nonce := nonce + 1;
          plaintexts := plaintexts + [plaintext];
        }
      case _ =>
        ok := false;
    }

    /** A frame is taken exactly when it fits, and the channel breaks exactly when some packet that has
        become contiguous does not open. */
    method Receive(f: Frame) returns (r: Received)
      requires Valid()
      modifies this
      ensures r.Rejected? <==> !Acceptable(old(arrived), f, 0)
      ensures r.Rejected? ==> unchanged(this)
      ensures r.Accepted? ==> Valid() && arrived == Add(old(arrived), f)
      ensures r.Broken? ==> Reorder.OpenedInOrder(peer, key, Delivered(Add(old(arrived), f))).None?
    {
      hide Buffered, Next, Delivered, Reorder.OpenedInOrder, Total, Acceptable;
      ChecksAreContract(pending, pendingBytes, expectedIn, arrived, f);
      if f.sequence < expectedIn || f.sequence in pending || f.sequence - expectedIn > WINDOW
         || f.packet.size > MAX_PAYLOAD {
        return Rejected;
      }
      ghost var after := Add(arrived, f);
      if f.sequence > expectedIn {
        RoomFor(pending, pendingBytes, expectedIn, arrived, f);
        if |pending| >= MAX_FRAMES || pendingBytes + f.packet.size > MAX_BYTES {
          assert false;
        }
        pending := pending[f.sequence := f.packet];
        pendingBytes := pendingBytes + f.packet.size;
        NothingNew(arrived, f);
        arrived := after;
        return Accepted;
      }
      var packet := f.packet;
      ghost var all := Delivered(after);
      MoreDelivered(arrived, f);
      NextArrives(pending, pendingBytes, expectedIn, arrived, packet);
      BufferedIsArrived(pending, pendingBytes, expectedIn + 1, after);
      arrived := after;
      r := OpenReady(packet, all);
    }

    /** Open the packet that has become contiguous, and whatever was waiting for it. */
    method OpenReady(first: Packet, ghost all: seq<Packet>) returns (r: Received)
      requires all == Delivered(arrived) && 1 <= expectedIn <= |all| && first == all[expectedIn - 1]
      requires Buffered(pending, pendingBytes, expectedIn + 1, arrived)
      requires Reorder.OpenedInOrder(peer, key, all[..expectedIn - 1]) == Some(plaintexts)
      requires established <==> 1 < expectedIn
      requires nonce == |plaintexts| == if established then expectedIn - 2 else 0
      modifies this`expectedIn, this`pending, this`pendingBytes, this`established, this`nonce, this`plaintexts
      ensures r.Accepted? || r.Broken?
      ensures r.Accepted? ==> Valid()
      ensures r.Broken? ==> Reorder.OpenedInOrder(peer, key, all).None?
    {
      hide Buffered, Next, Delivered, Reorder.OpenedInOrder, Total;
      var packet := first;
      while true
        invariant 1 <= expectedIn <= |all| && packet == all[expectedIn - 1]
        invariant Buffered(pending, pendingBytes, expectedIn + 1, arrived)
        invariant Reorder.OpenedInOrder(peer, key, all[..expectedIn - 1]) == Some(plaintexts)
        invariant established <==> 1 < expectedIn
        invariant nonce == |plaintexts| == if established then expectedIn - 2 else 0
        decreases |all| - expectedIn
      {
        OpensOneMore(peer, key, all, expectedIn - 1);
        var ok := ReceivePacket(packet);
        if !ok {
          NeverOpens(peer, key, all, expectedIn);
          return Broken;
        }
        expectedIn := expectedIn + 1;
        BufferedIsArrived(pending, pendingBytes, expectedIn, arrived);
        DeliveredAre(arrived);
        if expectedIn !in pending {
          assert all[..expectedIn - 1] == all;
          return Accepted;
        }
        NextTaken(pending, pendingBytes, expectedIn, arrived);
        packet := pending[expectedIn];
        pendingBytes := pendingBytes - packet.size;
        pending := pending - {expectedIn};
      }
    }
  }

  lemma DeliveredAre(a: Arrived)
    ensures |Delivered(a)| == Next(a) - 1
    ensures forall k :: 1 <= k < Next(a) ==> k in a && Delivered(a)[k - 1] == a[k]
  {
  }

  /** A frame ahead of the next one delivers nothing yet. */
  lemma NothingNew(a: Arrived, f: Frame)
    requires Next(a) < f.sequence
    ensures Next(Add(a, f)) == Next(a) && Delivered(Add(a, f)) == Delivered(a)
  {
    NextIs(Add(a, f), Next(a));
  }

  /** The next frame delivers itself and whatever was waiting for it. */
  lemma MoreDelivered(a: Arrived, f: Frame)
    requires Next(a) == f.sequence
    ensures Next(a) < Next(Add(a, f)) && |Delivered(Add(a, f))| == Next(Add(a, f)) - 1
    ensures Delivered(Add(a, f))[..Next(a) - 1] == Delivered(a) && Delivered(Add(a, f))[Next(a) - 1] == f.packet
  {
    DeliveredGrows(a, Add(a, f));
  }

  lemma NeverOpens(peer: Id, key: Id, all: seq<Packet>, n: nat)
    requires n <= |all| && Reorder.OpenedInOrder(peer, key, all[..n]).None?
    ensures Reorder.OpenedInOrder(peer, key, all).None?
  {
    if Reorder.OpenedInOrder(peer, key, all).Some? { OpenedPrefix(peer, key, all, n); }
  }

  // ----- the companion's pairing reader

  datatype Pulled = Got(packet: Packet) | Refused | Waiting

  /** Frames are read only while the packet asked for is missing. */
  class PairReader {
    var nextIn: int
    var pending: Arrived
    var pendingBytes: int
    /** The frames that the connection has yet to give up. */
    var incoming: seq<Frame>
    ghost var arrived: Arrived

    ghost predicate Valid()
      reads this
    {
      Buffered(pending, pendingBytes, nextIn, arrived)
    }

    constructor (frames: seq<Frame>)
      ensures Valid() && arrived == map[] && incoming == frames && nextIn == 1
    {
      BufferedAtFirst();
      nextIn, pending, pendingBytes, incoming := 1, map[], 0, frames;
      arrived := map[];
    }

    /** The packet with the given number, which has to be the next one.  `read` is the number of frames
        that were read and accepted on the way. */
    method NextPairPacket(sequence: int) returns (r: Pulled, ghost read: nat)
      requires Valid()
      modifies this
      ensures Valid() && read <= |old(incoming)|
      ensures Feed(old(arrived), old(incoming)[..read], 1) == (arrived, read)
      ensures sequence != old(nextIn) ==> r.Refused? && unchanged(this)
      ensures r.Got? ==> incoming == old(incoming)[read..] && nextIn == old(nextIn) + 1 && sequence < Next(arrived)
                         && r.packet == arrived[sequence]
      ensures r.Waiting? ==> incoming == [] && read == |old(incoming)| && nextIn == old(nextIn) == Next(arrived)
      ensures r.Refused? && sequence == old(nextIn) ==>
                read < |old(incoming)| && nextIn == old(nextIn) == Next(arrived)
                    && !Acceptable(arrived, old(incoming)[read], 1)
    {
      hide Buffered, Next, Delivered, Total, Acceptable;
      read := 0;
      assert old(incoming)[..0] == [];
      if sequence != nextIn {
        return Refused, read;
      }
      BufferedIsArrived(pending, pendingBytes, nextIn, arrived);
      if sequence in pending {
        NextTaken(pending, pendingBytes, nextIn, arrived);
        var packet := pending[sequence];
        pendingBytes := pendingBytes - packet.size;
        pending := pending - {sequence};
        nextIn := nextIn + 1;
        assert old(incoming)[0..] == old(incoming);
        return Got(packet), read;
      }
      while incoming != []
        invariant Buffered(pending, pendingBytes, nextIn, arrived) && sequence == nextIn == old(nextIn)
                  && nextIn !in pending
        invariant nextIn == Next(arrived)
        invariant read <= |old(incoming)| && incoming == old(incoming)[read..]
        invariant Feed(old(arrived), old(incoming)[..read], 1) == (arrived, read)
        decreases |incoming|
      {
        var frame := incoming[0];
        assert frame == old(incoming)[read] && old(incoming)[..read + 1] == old(incoming)[..read] + [frame];
        assert incoming[1..] == old(incoming)[read + 1..];
        FeedOneMore(old(arrived), old(incoming)[..read], frame, 1);
        ChecksAreContract(pending, pendingBytes, nextIn, arrived, frame);
        FitsNonEmpty(arrived, frame);
        incoming := incoming[1..];
        if frame.sequence < sequence || frame.sequence in pending || frame.sequence - sequence > WINDOW
           || frame.packet.size == 0 || frame.packet.size > MAX_PAYLOAD {
          return Refused, read;
        }
        read := read + 1;
        if frame.sequence == sequence {
          NextArrives(pending, pendingBytes, nextIn, arrived, frame.packet);
          MoreDelivered(arrived, frame);
          arrived := Add(arrived, frame);
          nextIn := nextIn + 1;
          BufferedIsArrived(pending, pendingBytes, nextIn, arrived);
          return Got(frame.packet), read;
        }
        RoomFor(pending, pendingBytes, nextIn, arrived, frame);
        if |pending| >= MAX_FRAMES || pendingBytes + frame.packet.size > MAX_BYTES {
          assert false;
        }
        pending := pending[frame.sequence := frame.packet];
        pendingBytes := pendingBytes + frame.packet.size;
        NothingNew(arrived, frame);
        arrived := Add(arrived, frame);
      }
      assert old(incoming)[..read] == old(incoming);
      return Waiting, read;
    }
  }

  lemma FitsNonEmpty(a: Arrived, f: Frame)
    ensures Acceptable(a, f, 1) <==> Acceptable(a, f, 0) && f.packet.size != 0
  {
  }

  // ----- the controller's buffer

  class RelayFrameBuffer {
    var nextSequence: int
    var frames: Arrived
    var byteCount: int
    ghost var arrived: Arrived

    ghost predicate Valid()
      reads this
    {
      Buffered(frames, byteCount, nextSequence, arrived) && nextSequence == Next(arrived)
    }

    constructor ()
      ensures Valid() && arrived == map[]
    {
      BufferedAtFirst();
      nextSequence, frames, byteCount := 1, map[], 0;
      arrived := map[];
    }

    /** Hand over the frame and whatever was waiting for it, hold it, or refuse it (None).  The caller has
        checked its size. */
    method Insert(f: Frame) returns (r: Option<seq<Packet>>)
      requires Valid() && f.packet.size <= MAX_PAYLOAD
      modifies this
      ensures r.Some? <==> Acceptable(old(arrived), f, 0)
      ensures r.None? ==> unchanged(this)
      ensures r.Some? ==> Valid() && arrived == Add(old(arrived), f)
                          && Delivered(arrived) == old(Delivered(arrived)) + r.value
    {
      hide Buffered, Next, Delivered, Total, Acceptable;
      ChecksAreContract(frames, byteCount, nextSequence, arrived, f);
      if !(f.sequence >= nextSequence && f.sequence - nextSequence <= WINDOW && f.sequence !in frames) {
        return None;
      }
      ghost var after := Add(arrived, f);
      if f.sequence != nextSequence {
        RoomFor(frames, byteCount, nextSequence, arrived, f);
        if |frames| >= MAX_FRAMES || byteCount + f.packet.size > MAX_BYTES {
          assert false;
        }
        frames := frames[f.sequence := f.packet];
        byteCount := byteCount + f.packet.size;
        NothingNew(arrived, f);
        assert Delivered(arrived) + [] == Delivered(arrived);
        arrived := after;
        return Some([]);
      }
      var contiguous := [f.packet];
      ghost var from, all := nextSequence - 1, Delivered(after);
      MoreDelivered(arrived, f);
      DeliveredAre(after);
      DeliveredAre(arrived);
      NextArrives(frames, byteCount, nextSequence, arrived, f.packet);
      nextSequence := nextSequence + 1;
      arrived := after;
      assert all[from] == f.packet && from + 1 == nextSequence - 1 <= |all|;
      assert all[from..nextSequence - 1] == [all[from]];
      while nextSequence in frames
        invariant Buffered(frames, byteCount, nextSequence, after) && arrived == after
        invariant from < nextSequence <= |all| + 1 && contiguous == all[from..nextSequence - 1]
        decreases |all| + 1 - nextSequence
      {
        BufferedIsArrived(frames, byteCount, nextSequence, after);
        NextTaken(frames, byteCount, nextSequence, after);
        var pending := frames[nextSequence];
        byteCount := byteCount - pending.size;
        frames := frames - {nextSequence};
        contiguous := contiguous + [pending];
        assert all[from..nextSequence] == all[from..nextSequence - 1] + [all[nextSequence - 1]];
        nextSequence := nextSequence + 1;
      }
      BufferedIsArrived(frames, byteCount, nextSequence, after);
      assert all == all[..from] + all[from..];
      return Some(contiguous);
    }
  }

  /** The controller's pairing reader: packets wait in a queue until they are asked for. */
  class QueuedReader {
    const buffer: RelayFrameBuffer
    var queued: seq<Packet>
    var incoming: seq<Frame>
    ghost var taken: nat

    ghost predicate Valid()
      reads this, buffer
    {
      buffer.Valid() && taken <= |Delivered(buffer.arrived)| && queued == Delivered(buffer.arrived)[taken..]
    }

    constructor (frames: seq<Frame>)
      ensures Valid() && fresh(buffer) && buffer.arrived == map[] && incoming == frames && taken == 0
    {
      buffer := new RelayFrameBuffer();
      queued, incoming := [], frames;
      taken := 0;
    }

    /** The next packet in order.  `read` is the number of frames read and accepted on the way. */
    method ReceivePairFrame() returns (r: Pulled, ghost read: nat)
      requires Valid()
      modifies this, buffer
      ensures Valid() && read <= |old(incoming)|
      ensures Feed(old(buffer.arrived), old(incoming)[..read], 1) == (buffer.arrived, read)
      ensures r.Got? ==> incoming == old(incoming)[read..] && taken == old(taken) + 1
                         && r.packet == Delivered(buffer.arrived)[taken - 1]
      ensures !r.Got? ==> taken == old(taken) == |Delivered(buffer.arrived)|
      ensures r.Waiting? ==> incoming == [] && read == |old(incoming)|
      ensures r.Refused? ==> read < |old(incoming)| && !Acceptable(buffer.arrived, old(incoming)[read], 1)
    {
      hide Delivered, Next, Acceptable, Feed, Buffered;
      read := 0;
      FeedNothing(buffer.arrived, 1);
      assert old(incoming)[..0] == [] && old(incoming)[0..] == old(incoming);
      while queued == [] && incoming != []
        invariant Valid() && taken == old(taken)
        invariant read <= |old(incoming)| && incoming == old(incoming)[read..]
        invariant Feed(old(buffer.arrived), old(incoming)[..read], 1) == (buffer.arrived, read)
        decreases |incoming|
      {
        var frame := incoming[0];
        assert frame == old(incoming)[read] && old(incoming)[..read + 1] == old(incoming)[..read] + [frame];
        FeedOneMore(old(buffer.arrived), old(incoming)[..read], frame, 1);
        SizesMatter(buffer.arrived, frame);
        FitsNonEmpty(buffer.arrived, frame);
        incoming := incoming[1..];
        if frame.sequence < 1 || frame.packet.size == 0 || frame.packet.size > MAX_PAYLOAD {
          return Refused, read;
        }
        var inserted := buffer.Insert(frame);
        if inserted.None? {
          return Refused, read;
        }
        read := read + 1;
        queued := inserted.value;
      }
      if queued == [] {
        assert old(incoming)[..read] == old(incoming);
        return Waiting, read;
      }
      r := Got(queued[0]);
      queued := queued[1..];
      taken := taken + 1;
    }
  }

  lemma SizesMatter(a: Arrived, f: Frame)
    ensures Acceptable(a, f, 1) ==> 1 <= f.sequence && 1 <= f.packet.size <= MAX_PAYLOAD
  {
  }

  // ----- whole traces

  lemma FeedNothing(a: Arrived, minimum: nat)
    ensures Feed(a, [], minimum) == (a, 0)
  {
  }

  /** Two stretches of a trace, the first accepted whole. */
  lemma {:induction false} FeedConcat(a: Arrived, x: seq<Frame>, y: seq<Frame>, minimum: nat)
    requires Feed(a, x, minimum).1 == |x|
    ensures var b := Feed(a, x, minimum).0;
            Feed(a, x + y, minimum) == (Feed(b, y, minimum).0, |x| + Feed(b, y, minimum).1)
    decreases |x|
  {
    hide Acceptable, Add;
    if x == [] {
      assert x + y == y;
    } else {
      FirstOfConcat(x, y);
      FeedConcat(Add(a, x[0]), x[1..], y, minimum);
    }
  }

  lemma FirstOfConcat(x: seq<Frame>, y: seq<Frame>)
    requires x != []
    ensures x + y != [] && (x + y)[0] == x[0] && (x + y)[1..] == x[1..] + y
  {
  }

  lemma {:induction false} FeedKeeps(a: Arrived, x: seq<Frame>, minimum: nat)
    ensures forall k :: k in a ==> k in Feed(a, x, minimum).0 && Feed(a, x, minimum).0[k] == a[k]
    decreases |x|
  {
    if x != [] && Acceptable(a, x[0], minimum) { FeedKeeps(Add(a, x[0]), x[1..], minimum); }
  }

  /** What has been handed over stays the front of all that is delivered. */
  lemma FrontStays(a: Arrived, b: Arrived)
    requires forall k :: k in a ==> k in b && b[k] == a[k]
    ensures |Delivered(a)| <= |Delivered(b)| && Delivered(a) == Delivered(b)[..|Delivered(a)|]
  {
    DeliveredGrows(a, b);
  }

  /** A trace accepted up to a frame that does not fit. */
  lemma FeedUpTo(frames: seq<Frame>, n: nat, minimum: nat)
    requires n < |frames| && Feed(map[], frames[..n], minimum).1 == n
    requires !Acceptable(Feed(map[], frames[..n], minimum).0, frames[n], minimum)
    ensures Feed(map[], frames, minimum) == Feed(map[], frames[..n], minimum)
  {
    assert frames == frames[..n] + frames[n..];
    FeedConcat(map[], frames[..n], frames[n..], minimum);
  }

  /** The companion pairing on a whole trace, asking for packet after packet. */
  method PullAll(frames: seq<Frame>) returns (handed: seq<Packet>, whole: bool, ghost n: nat)
    ensures handed == Delivered(Feed(map[], frames, 1).0) && n == Feed(map[], frames, 1).1
    ensures whole <==> n == |frames|
  {
    hide Delivered, Next, Acceptable, Feed, Buffered;
    var reader := new PairReader(frames);
    handed := [];
    n := 0;
    FeedNothing(map[], 1);
    DeliveredAre(reader.arrived);
    assert frames[..0] == [] && frames[0..] == frames;
    while true
      invariant fresh(reader) && reader.Valid() && n <= |frames| && reader.incoming == frames[n..]
      invariant Feed(map[], frames[..n], 1) == (reader.arrived, n)
      invariant |Delivered(reader.arrived)| == Next(reader.arrived) - 1
      invariant 1 <= reader.nextIn <= Next(reader.arrived) && handed == Delivered(reader.arrived)[..reader.nextIn - 1]
      decreases |reader.incoming|, Next(reader.arrived) - reader.nextIn
    {
      ghost var before := reader.arrived;
      var r, read := reader.NextPairPacket(reader.nextIn);
      assert frames[..n + read] == frames[..n] + frames[n..][..read];
      FeedConcat(map[], frames[..n], frames[n..][..read], 1);
      FeedKeeps(before, frames[n..][..read], 1);
      FrontStays(before, reader.arrived);
      DeliveredAre(reader.arrived);
      n := n + read;
      match r {
        case Got(packet) =>
          handed := handed + [packet];
        case Waiting =>
          assert frames[..n] == frames && Delivered(reader.arrived)[..reader.nextIn - 1] == Delivered(reader.arrived);
          return handed, true, n;
        case Refused =>
          FeedUpTo(frames, n, 1);
          assert Delivered(reader.arrived)[..reader.nextIn - 1] == Delivered(reader.arrived);
          return handed, false, n;
      }
    }
  }

  /** The controller pairing on a whole trace. */
  method QueueAll(frames: seq<Frame>) returns (handed: seq<Packet>, whole: bool, ghost n: nat)
    ensures handed == Delivered(Feed(map[], frames, 1).0) && n == Feed(map[], frames, 1).1
    ensures whole <==> n == |frames|
  {
    hide Delivered, Next, Acceptable, Feed, Buffered;
    var reader := new QueuedReader(frames);
    handed := [];
    n := 0;
    FeedNothing(map[], 1);
    assert frames[..0] == [] && frames[0..] == frames;
    while true
      invariant fresh(reader) && fresh(reader.buffer) && reader.Valid() && n <= |frames|
                && reader.incoming == frames[n..]
      invariant Feed(map[], frames[..n], 1) == (reader.buffer.arrived, n)
      invariant handed == Delivered(reader.buffer.arrived)[..reader.taken]
      decreases |reader.incoming|, |Delivered(reader.buffer.arrived)| - reader.taken
    {
      ghost var before := reader.buffer.arrived;
      var r, read := reader.ReceivePairFrame();
      assert frames[..n + read] == frames[..n] + frames[n..][..read];
      FeedConcat(map[], frames[..n], frames[n..][..read], 1);
      FeedKeeps(before, frames[n..][..read], 1);
      FrontStays(before, reader.buffer.arrived);
      n := n + read;
      match r {
        case Got(packet) =>
          handed := handed + [packet];
        case Waiting =>
          assert frames[..n] == frames;
          return handed, true, n;
        case Refused =>
          FeedUpTo(frames, n, 1);
          return handed, false, n;
      }
    }
  }

  /** The controller's session on a whole trace. */
  method InsertAll(frames: seq<Frame>) returns (handed: seq<Packet>, whole: bool, n: nat)
    ensures handed == Delivered(Feed(map[], frames, 1).0) && n == Feed(map[], frames, 1).1
    ensures whole <==> n == |frames|
  {
    hide Delivered, Next, Acceptable, Feed, Buffered;
    var buffer := new RelayFrameBuffer();
    handed, n := [], 0;
    FeedNothing(map[], 1);
    assert frames[..0] == [];
    DeliveredAre(map[]);
    BufferedAtFirst();
    for i := 0 to |frames|
      invariant fresh(buffer) && buffer.Valid() && Feed(map[], frames[..i], 1) == (buffer.arrived, i)
      invariant handed == Delivered(buffer.arrived)
    {
      var f := frames[i];
      assert frames[..i + 1] == frames[..i] + [f];
      FeedOneMore(map[], frames[..i], f, 1);
      FitsNonEmpty(buffer.arrived, f);
      SizesMatter(buffer.arrived, f);
      if f.packet.size == 0 || f.packet.size > MAX_PAYLOAD {
        FeedUpTo(frames, i, 1);
        return handed, false, i;
      }
      var inserted := buffer.Insert(f);
      if inserted.None? {
        FeedUpTo(frames, i, 1);
        return handed, false, i;
      }
      handed := handed + inserted.value;
    }
    assert frames[..|frames|] == frames;
    return handed, true, |frames|;
  }

  /** The companion's session on a whole trace, up to the first frame that is refused or does not open. */
  method ReceiveAll(channel: SecureChannel, frames: seq<Frame>) returns (n: nat, r: Received)
    requires channel.Valid() && channel.arrived == map[]
    modifies channel
    ensures n <= |frames| && (r.Accepted? <==> n == |frames|)
    ensures !r.Broken? ==> channel.Valid() && Feed(map[], frames, 0) == (channel.arrived, n)
    ensures r.Broken? ==> n < |frames| && Feed(map[], frames[..n + 1], 0).1 == n + 1
                          && Reorder.OpenedInOrder(channel.peer, channel.key,
                                                   Delivered(Feed(map[], frames[..n + 1], 0).0)).None?
  {
    hide Delivered, Next, Acceptable, Feed, Buffered, Reorder.OpenedInOrder;
    FeedNothing(map[], 0);
    assert frames[..0] == [];
    n := 0;
    while n < |frames|
      invariant n <= |frames| && channel.Valid() && Feed(map[], frames[..n], 0) == (channel.arrived, n)
    {
      assert frames[..n + 1] == frames[..n] + [frames[n]];
      FeedOneMore(map[], frames[..n], frames[n], 0);
      r := channel.Receive(frames[n]);
      if r.Rejected? {
        FeedUpTo(frames, n, 0);
        return;
      }
      if r.Broken? {
        return;
      }
      n := n + 1;
    }
    assert frames[..n] == frames;
    r := Accepted;
  }

  // ----- from an honest sender to its receiver

  /** Numbers and nonces count up together, one packet at a time. */
  class Sender {
    var nextOut: int
    var nonce: nat
    const peer: Id
    const key: Id
    ghost var sent: seq<Frame>
    ghost var plaintexts: seq<nat>

    ghost predicate Valid()
      reads this
    {
      && nextOut == |sent| + 1 && nonce == |plaintexts|
      && SentBy(peer, key, plaintexts, sent)
    }

    constructor (peer: Id, key: Id, size: nat)
      requires size <= MAX_PAYLOAD
      ensures Valid() && plaintexts == [] && sent == [Frame(1, Packet(size, Handshake(peer)))]
    {
      this.peer, this.key := peer, key;
      nextOut, nonce := 2, 0;
      sent, plaintexts := [Frame(1, Packet(size, Handshake(peer)))], [];
    }

    method SendPacket(plaintext: nat, size: nat) returns (f: Frame)
      requires Valid() && size <= MAX_PAYLOAD
      modifies this
      ensures Valid() && sent == old(sent) + [f] && plaintexts == old(plaintexts) + [plaintext]
      ensures f == Frame(|old(sent)| + 1, Packet(size, Sealed(key, |old(plaintexts)|, plaintext)))
    {
      f := Frame(nextOut, Packet(size, Sealed(key, nonce, plaintext)));
      nextOut := nextOut + 1;
      nonce := nonce + 1;
      sent, plaintexts := sent + [f], plaintexts + [plaintext];
    }
  }

  ghost predicate SentBy(peer: Id, key: Id, plaintexts: seq<nat>, sent: seq<Frame>) {
    && |sent| == |plaintexts| + 1
    && (forall i :: 0 <= i < |sent| ==> sent[i].sequence == i + 1 && sent[i].packet.size <= MAX_PAYLOAD)
    && sent[0].packet.content == Handshake(peer)
    && (forall i :: 0 <= i < |plaintexts| ==> sent[i + 1].packet.content == Sealed(key, i, plaintexts[i]))
  }

  /** The same frames in another order, none of them more than the window out of place. */
  ghost predicate Shuffled(sent: seq<Frame>, frames: seq<Frame>) {
    && |frames| == |sent|
    && (forall i :: 0 <= i < |frames| ==> 1 <= frames[i].sequence <= |sent|
                                          && frames[i] == sent[frames[i].sequence - 1])
    && (forall i, j :: 0 <= i < j < |frames| ==> frames[i].sequence != frames[j].sequence)
    && (forall i :: 0 <= i < |frames| ==> InWindow(frames, i))
  }

  lemma ShuffledIsWindowed(sent: seq<Frame>, frames: seq<Frame>)
    requires Shuffled(sent, frames) && forall i :: 0 <= i < |sent| ==> sent[i].packet.size <= MAX_PAYLOAD
    ensures Windowed(frames) && forall i :: 0 <= i < |frames| ==> frames[i].sequence <= |frames|
  {
  }

  /** The packets come out as they were sent. */
  lemma HandedOver(sent: seq<Frame>, frames: seq<Frame>, k: nat)
    requires Shuffled(sent, frames) && Windowed(frames) && k < |sent|
    ensures var packets := Delivered(Feed(map[], frames, 0).0);
            |packets| == |sent| && packets[k] == sent[k].packet
  {
    NumbersInRange(sent, frames);
    WindowedIsComplete(frames);
    AllArrive(frames, |frames|);
    assert SentBefore(frames, |frames|, k + 1);
    hide Delivered, Feed, Windowed, InWindow;
    var j :| 0 <= j < |frames| && frames[j].sequence == k + 1;
    assert Delivered(Feed(map[], frames, 0).0)[frames[j].sequence - 1] == frames[j].packet;
  }

  lemma NumbersInRange(sent: seq<Frame>, frames: seq<Frame>)
    requires Shuffled(sent, frames)
    ensures forall i :: 0 <= i < |frames| ==> 1 <= frames[i].sequence <= |frames|
  {
  }

  /** Whatever the relay's reordering, an honest sender's messages are all accepted and open in order. */
  lemma HonestSessionArrives(peer: Id, key: Id, plaintexts: seq<nat>, sent: seq<Frame>, frames: seq<Frame>)
    requires SentBy(peer, key, plaintexts, sent) && Shuffled(sent, frames)
    ensures Feed(map[], frames, 0).1 == |frames|
    ensures Reorder.OpenedInOrder(peer, key, Delivered(Feed(map[], frames, 0).0)) == Some(plaintexts)
  {
    ShuffledIsWindowed(sent, frames);
    WindowedIsComplete(frames);
    var packets := Delivered(Feed(map[], frames, 0).0);
    hide Delivered, Feed, Windowed, Shuffled, Reorder.OpenedInOrder;
    forall k | 0 <= k < |sent| ensures |packets| == |sent| && packets[k] == sent[k].packet {
      HandedOver(sent, frames, k);
    }
    HonestOpens(peer, key, plaintexts, packets);
  }

  lemma PrefixOpens(peer: Id, key: Id, frames: seq<Frame>, n: nat)
    requires n <= |frames| && Feed(map[], frames, 0).1 == |frames|
    requires Reorder.OpenedInOrder(peer, key, Delivered(Feed(map[], frames, 0).0)).Some?
    requires Feed(map[], frames[..n], 0).1 == n
    ensures Reorder.OpenedInOrder(peer, key, Delivered(Feed(map[], frames[..n], 0).0)).Some?
  {
    var a, b := Feed(map[], frames[..n], 0).0, Feed(map[], frames, 0).0;
    assert frames == frames[..n] + frames[n..];
    FeedConcat(map[], frames[..n], frames[n..], 0);
    FeedKeeps(a, frames[n..], 0);
    FrontStays(a, b);
    OpenedPrefix(peer, key, Delivered(b), |Delivered(a)|);
  }

  lemma NothingPending(pending: Arrived, bytes: int, next: int, arrived: Arrived)
    requires Buffered(pending, bytes, next, arrived) && next == Next(arrived)
    requires arrived.Keys == Range(1, next)
    ensures pending == map[]
  {
  }

  /** So a session never refuses nor breaks on them, and ends with every plaintext in order. */
  method HonestSession(channel: SecureChannel, plaintexts: seq<nat>, sent: seq<Frame>, frames: seq<Frame>)
    requires channel.Valid() && channel.arrived == map[]
    requires SentBy(channel.peer, channel.key, plaintexts, sent) && Shuffled(sent, frames)
    modifies channel
    ensures channel.Valid() && channel.plaintexts == plaintexts && channel.pending == map[]
  {
    HonestSessionArrives(channel.peer, channel.key, plaintexts, sent, frames);
    ShuffledIsWindowed(sent, frames);
    WindowedIsComplete(frames);
    hide Shuffled, SentBy, Windowed, Reorder.OpenedInOrder, Feed, Delivered, Next, Buffered;
    var n, r := ReceiveAll(channel, frames);
    if r.Broken? {
      PrefixOpens(channel.peer, channel.key, frames, n + 1);
    }
    NothingPending(channel.pending, channel.pendingBytes, channel.expectedIn, channel.arrived);
  }
}
