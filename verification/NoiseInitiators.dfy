/** The controller's two hand-written initiators: IK for sessions, NNpsk0 for pairing. */
module NoiseInitiators {
  import opened Records
  import opened Noise

  const MAX_PLAINTEXT := 16_368
  const RESPONSE_BYTES := KEY_BYTES + TAG_BYTES

  /** The message patterns of section 7.5, NN with the psk0 modifier of section 9.4. */
  const IK_1: seq<Token> := [E, ES, S, SS]
  const IK_2: seq<Token> := [E, EE, SE]
  const NN_PSK0_1: seq<Token> := [PSK, E]
  const NN_PSK0_2: seq<Token> := [E, EE]

  datatype NoisePhase = Ready | WaitingForResponse | Transport

  predicate IsZero(d: Data) { forall i :: 0 <= i < |d| ==> d[i] == 0 }

  /** What an end sends under and what it receives under: the initiator sends under the first key of the split. */
  function Directions(c: Crypto, hs: Handshake): (Cipher, Cipher) {
    var (first, second) := Split(c, hs.symmetric);
    if hs.initiator then (first, second) else (second, first)
  }

  /** What one end sends under is what the other receives under. */
  predicate Opposite(x: (Cipher, Cipher), y: (Cipher, Cipher)) { x.0 == y.1 && x.1 == y.0 }

  // ----- the two ends as section 5.3 sets them up

  function IKSymmetric(c: Crypto, protocolName: Data, prologue: Data, responderKey: Data): Symmetric {
    MixHash(c, MixHash(c, InitializeSymmetric(c, protocolName), prologue), responderKey)
  }

  function IKInitiator(c: Crypto, protocolName: Data, prologue: Data, s: nat, rs: Data): Handshake {
    Handshake(IKSymmetric(c, protocolName, prologue, rs), Some(s), None, Some(rs), None, true, None)
  }

  function IKResponder(c: Crypto, protocolName: Data, prologue: Data, s: nat): Handshake {
    Handshake(IKSymmetric(c, protocolName, prologue, c.publicKey(s)), Some(s), None, None, None, false, None)
  }

  function PskEnd(c: Crypto, protocolName: Data, prologue: Data, psk: Data, initiates: bool): Handshake {
    Handshake(MixHash(c, InitializeSymmetric(c, protocolName), prologue), None, None, None, None, initiates, Some(psk))
  }

  /** A handshake of two messages without payload between two ends that match. */
  lemma TwoMessages(c: Crypto, i0: Handshake, r0: Handshake, first: seq<Token>, second: seq<Token>, ei: nat, er: nat)
    requires Lawful(c) && InStep(c, i0, r0) && i0.initiator
    requires StaticSent(r0.rs.Some?, true, first) && StaticSent(i0.rs.Some?, false, second)
    requires WriteMessage(c, i0, first, [], ei).Some?
    requires var (i1, m1) := WriteMessage(c, i0, first, [], ei).value;
             var r1 := ReadMessage(c, r0, first, m1);
             r1.Some? ==> WriteMessage(c, r1.value.0, second, [], er).Some?
    requires var (i1, m1) := WriteMessage(c, i0, first, [], ei).value; i1.rs == i0.rs && i1.initiator == i0.initiator
    ensures var (i1, m1) := WriteMessage(c, i0, first, [], ei).value;
            var r1 := ReadMessage(c, r0, first, m1);
            && r1.Some? && r1.value.1 == []
            && var (r2, m2) := WriteMessage(c, r1.value.0, second, [], er).value;
               var i2 := ReadMessage(c, i1, second, m2);
            && i2.Some? && i2.value.1 == [] && InStep(c, r2, i2.value.0)
  {
    var (i1, m1) := WriteMessage(c, i0, first, [], ei).value;
    MessageMatches(c, i0, r0, first, [], ei);
    var r1 := ReadMessage(c, r0, first, m1).value.0;
    assert InStep(c, r1, i1);
    hide WriteMessage, ReadMessage;
    MessageMatches(c, r1, i1, second, [], er);
  }

  lemma {:induction false} WritingKeepsRoles(c: Crypto, hs: Handshake, tokens: seq<Token>, ephemeral: nat)
    requires WriteTokens(c, hs, tokens, ephemeral).Some?
    ensures var w := WriteTokens(c, hs, tokens, ephemeral).value.0; w.rs == hs.rs && w.initiator == hs.initiator
    decreases |tokens|
  {
    if tokens != [] {
      var x := WriteToken(c, hs, tokens[0], ephemeral).value.0;
      assert x.rs == hs.rs && x.initiator == hs.initiator;
      hide WriteToken;
      WritingKeepsRoles(c, x, tokens[1..], ephemeral);
    }
  }

  /** IK: an initiator that knows the responder's key and a responder that holds it complete the handshake
      whenever their DH results are usable, with the same hash, chaining key and transport keys. */
  lemma IKEndsAgree(c: Crypto, protocolName: Data, prologue: Data, si: nat, sr: nat, ei: nat, er: nat)
    requires Lawful(c)
    requires WriteMessage(c, IKInitiator(c, protocolName, prologue, si, c.publicKey(sr)), IK_1, [], ei).Some?
    requires var (i1, m1) := WriteMessage(c, IKInitiator(c, protocolName, prologue, si, c.publicKey(sr)), IK_1, [],
                                          ei).value;
             var r1 := ReadMessage(c, IKResponder(c, protocolName, prologue, sr), IK_1, m1);
             r1.Some? ==> WriteMessage(c, r1.value.0, IK_2, [], er).Some?
    ensures var (i1, m1) := WriteMessage(c, IKInitiator(c, protocolName, prologue, si, c.publicKey(sr)), IK_1, [],
                                         ei).value;
            var r1 := ReadMessage(c, IKResponder(c, protocolName, prologue, sr), IK_1, m1);
            && r1.Some? && r1.value.1 == []
            && var (r2, m2) := WriteMessage(c, r1.value.0, IK_2, [], er).value;
               var i2 := ReadMessage(c, i1, IK_2, m2);
            && i2.Some? && i2.value.1 == []
            && i2.value.0.symmetric == r2.symmetric
            && Opposite(Directions(c, i2.value.0), Directions(c, r2))
  {
    var i0, r0 := IKInitiator(c, protocolName, prologue, si, c.publicKey(sr)),
        IKResponder(c, protocolName, prologue, sr);
    var (i1, m1) := WriteMessage(c, i0, IK_1, [], ei).value;
    WritingKeepsRoles(c, i0, IK_1, ei);
    assert InStep(c, i0, r0);
    PatternsSendStatics();
    assert i1.rs == i0.rs && i1.initiator == i0.initiator;
    hide WriteMessage, ReadMessage, Lawful, IKInitiator, IKResponder;
    TwoMessages(c, i0, r0, IK_1, IK_2, ei, er);
  }

  lemma PatternsSendStatics()
    ensures StaticSent(false, true, IK_1) && StaticSent(true, false, IK_2)
    ensures StaticSent(false, true, NN_PSK0_1) && StaticSent(false, false, NN_PSK0_2)
  {
    assert IK_1[1..] == [ES, S, SS] && [ES, S, SS][1..] == [S, SS] && [S, SS][1..] == [SS] && [SS][1..] == [];
    assert StaticSent(true, true, [SS]) && StaticSent(false, true, [S, SS]) && StaticSent(false, true, [ES, S, SS]);
    assert IK_2[1..] == [EE, SE] && [EE, SE][1..] == [SE] && [SE][1..] == [];
    assert StaticSent(true, false, [SE]) && StaticSent(true, false, [EE, SE]);
    assert NN_PSK0_1[1..] == [E] && [E][1..] == [];
    assert StaticSent(false, true, [E]);
    assert NN_PSK0_2[1..] == [EE] && [EE][1..] == [];
    assert StaticSent(false, false, [EE]);
  }

  /** NNpsk0: two ends with the same PSK and prologue, likewise. */
  lemma PskEndsAgree(c: Crypto, protocolName: Data, prologue: Data, psk: Data, ei: nat, er: nat)
    requires Lawful(c)
    requires WriteMessage(c, PskEnd(c, protocolName, prologue, psk, true), NN_PSK0_1, [], ei).Some?
    requires var (i1, m1) := WriteMessage(c, PskEnd(c, protocolName, prologue, psk, true), NN_PSK0_1, [], ei).value;
             var r1 := ReadMessage(c, PskEnd(c, protocolName, prologue, psk, false), NN_PSK0_1, m1);
             r1.Some? ==> WriteMessage(c, r1.value.0, NN_PSK0_2, [], er).Some?
    ensures var (i1, m1) := WriteMessage(c, PskEnd(c, protocolName, prologue, psk, true), NN_PSK0_1, [], ei).value;
            var r1 := ReadMessage(c, PskEnd(c, protocolName, prologue, psk, false), NN_PSK0_1, m1);
            && r1.Some? && r1.value.1 == []
            && var (r2, m2) := WriteMessage(c, r1.value.0, NN_PSK0_2, [], er).value;
               var i2 := ReadMessage(c, i1, NN_PSK0_2, m2);
            && i2.Some? && i2.value.1 == []
            && i2.value.0.symmetric == r2.symmetric
            && Opposite(Directions(c, i2.value.0), Directions(c, r2))
  {
    var i0, r0 := PskEnd(c, protocolName, prologue, psk, true), PskEnd(c, protocolName, prologue, psk, false);
    var (i1, m1) := WriteMessage(c, i0, NN_PSK0_1, [], ei).value;
    WritingKeepsRoles(c, i0, NN_PSK0_1, ei);
    assert InStep(c, i0, r0);
    PatternsSendStatics();
    assert i1.rs == i0.rs && i1.initiator == i0.initiator;
    hide WriteMessage, ReadMessage, Lawful, PskEnd;
    TwoMessages(c, i0, r0, NN_PSK0_1, NN_PSK0_2, ei, er);
  }

  // ----- transport

  function SealAll(c: Crypto, cs: Cipher, plaintexts: seq<Data>): Option<(Cipher, seq<Data>)>
    decreases |plaintexts|
  {
    if plaintexts == [] then Some((cs, []))
    else
      var first := Encrypt(c, cs, [], plaintexts[0]);
      if first.None? then None
      else
        var rest := SealAll(c, first.value.0, plaintexts[1..]);
        if rest.None? then None else Some((rest.value.0, [first.value.1] + rest.value.1))
  }

  function OpenAll(c: Crypto, cs: Cipher, ciphertexts: seq<Data>): Option<(Cipher, seq<Data>)>
    decreases |ciphertexts|
  {
    if ciphertexts == [] then Some((cs, []))
    else
      var first := Decrypt(c, cs, [], ciphertexts[0]);
      if first.None? then None
      else
        var rest := OpenAll(c, first.value.0, ciphertexts[1..]);
        if rest.None? then None else Some((rest.value.0, [first.value.1] + rest.value.1))
  }

  /** Under a key that both ends share, what one seals in order the other opens in order, each message under
      a nonce of its own. */
  lemma {:induction false} TransportInOrder(c: Crypto, cs: Cipher, plaintexts: seq<Data>)
    requires Lawful(c) && cs.key.Some? && SealAll(c, cs, plaintexts).Some?
    ensures var (after, ciphertexts) := SealAll(c, cs, plaintexts).value;
            && OpenAll(c, cs, ciphertexts) == Some((after, plaintexts))
            && |ciphertexts| == |plaintexts| && after == cs.(nonce := cs.nonce + |plaintexts|)
            && (forall i :: 0 <= i < |plaintexts| ==> ciphertexts[i]
                                                      == c.seal(cs.key.value, cs.nonce + i, [], plaintexts[i]))
    decreases |plaintexts|
  {
    hide Lawful, Decrypt;
    if plaintexts != [] {
      var (next, ciphertext) := Encrypt(c, cs, [], plaintexts[0]).value;
      assert ciphertext == c.seal(cs.key.value, cs.nonce, [], plaintexts[0]) && next == cs.(nonce := cs.nonce + 1);
      DecryptUndoesEncrypt(c, cs, [], plaintexts[0]);
      TransportInOrder(c, next, plaintexts[1..]);
      var (after, rest) := SealAll(c, next, plaintexts[1..]).value;
      assert ([ciphertext] + rest)[1..] == rest && [plaintexts[0]] + plaintexts[1..] == plaintexts;
      forall i | 0 <= i < |plaintexts| ensures ([ciphertext] + rest)[i]
          == c.seal(cs.key.value, cs.nonce + i, [], plaintexts[i]) {
        if i > 0 { assert plaintexts[1..][i - 1] == plaintexts[i]; }
      }
    }
  }

  /** The key and nonce of each of the next `n` messages. */
  function Uses(cs: Cipher, n: nat): seq<(Option<Data>, nat)> { seq(n, i => (cs.key, cs.nonce + i)) }

  /** Whatever both ends of a handshake seal, no key is used with one nonce twice. */
  lemma NoNonceTwice(c: Crypto, x: Handshake, y: Handshake, fromX: seq<Data>, fromY: seq<Data>)
    requires Lawful(c) && Ideal(c) && x.symmetric == y.symmetric && x.initiator != y.initiator
    requires SealAll(c, Directions(c, x).0, fromX).Some? && SealAll(c, Directions(c, y).0, fromY).Some?
    ensures var uses := Uses(Directions(c, x).0, |fromX|) + Uses(Directions(c, y).0, |fromY|);
            var sealed := SealAll(c, Directions(c, x).0, fromX).value.1 + SealAll(c, Directions(c, y).0, fromY).value.1;
            && |sealed| == |uses| && (forall i, j :: 0 <= i < j < |uses| ==> uses[i] != uses[j])
            && forall i :: 0 <= i < |uses| ==>
                 uses[i].0.Some? && sealed[i] == c.seal(uses[i].0.value, uses[i].1, [], (fromX + fromY)[i])
  {
    hide SealAll, Hkdf, Lawful;
    SplitsApart(c, x.symmetric, y.symmetric);
    TransportInOrder(c, Directions(c, x).0, fromX);
    TransportInOrder(c, Directions(c, y).0, fromY);
  }

  // ----- unrolled

  lemma WriteStep(c: Crypto, hs: Handshake, t: Token, rest: seq<Token>, ephemeral: nat)
    ensures WriteTokens(c, hs, [t] + rest, ephemeral) ==
              var first := WriteToken(c, hs, t, ephemeral);
              if first.None? then None
              else
                var after := WriteTokens(c, first.value.0, rest, ephemeral);
                if after.None? then None else Some((after.value.0, first.value.1 + after.value.1))
  {
    assert ([t] + rest)[1..] == rest;
  }

  lemma ReadStep(c: Crypto, hs: Handshake, t: Token, rest: seq<Token>, message: Data)
    ensures ReadTokens(c, hs, [t] + rest, message) ==
              var first := ReadToken(c, hs, t, message);
              if first.None? then None else ReadTokens(c, first.value.0, rest, first.value.1)
  {
    assert ([t] + rest)[1..] == rest;
  }

  /** The response of either pattern can only be 48 bytes if it carries no payload. */
  lemma ResponseLength(c: Crypto, hs: Handshake, more: seq<Token>, message: Data)
    requires Lawful(c) && (more == [EE] || more == [EE, SE])
    requires var r := ReadMessage(c, hs, [E] + more, message); r.Some? && r.value.1 == []
    ensures |message| == RESPONSE_BYTES
  {
    ReadStep(c, hs, E, more, message);
    var (h1, rest) := ReadToken(c, hs, E, message).value;
    if more == [EE] {
      ReadStep(c, h1, EE, [], rest);
    } else {
      assert [EE, SE] == [EE] + [SE];
      ReadStep(c, h1, EE, [SE], rest);
      ReadStep(c, ReadToken(c, h1, EE, rest).value.0, SE, [], rest);
    }
  }

  /** So reading a message as the framework does takes no other length. */
  lemma ResponsesAreShort(c: Crypto, hs: Handshake, pattern: seq<Token>, message: Data)
    requires pattern == IK_2 || pattern == NN_PSK0_2
    ensures Lawful(c) && ReadMessage(c, hs, pattern, message).Some?
            && ReadMessage(c, hs, pattern, message).value.1 == [] ==>
              |message| == RESPONSE_BYTES
  {
    assert [E] + [EE, SE] == IK_2 && [E] + [EE] == NN_PSK0_2;
    if Lawful(c) && ReadMessage(c, hs, pattern, message).Some? && ReadMessage(c, hs, pattern, message).value.1 == [] {
      ResponseLength(c, hs, if pattern == IK_2 then [EE, SE] else [EE], message);
    }
  }

  class NoiseIKInitiator {
    const c: Crypto
    const staticKey: nat
    const remoteStaticKey: Data
    var ephemeralKey: Option<nat>
    var symmetric: Symmetric
    var sendCipher: Option<Cipher>
    var receiveCipher: Option<Cipher>
    var phase: NoisePhase
    /** The nonces that the send key has been used with. */
    ghost var sealed: set<nat>

    ghost predicate Valid()
      reads this
    {
      && (phase == WaitingForResponse ==> ephemeralKey.Some?)
      && (phase == Transport ==> sendCipher.Some? && receiveCipher.Some? && sendCipher.value.key.Some?
                                 && receiveCipher.value.key.Some?)
      && (sendCipher.Some? ==> forall n :: n in sealed ==> n < sendCipher.value.nonce)
      && (sendCipher.None? ==> sealed == {})
    }

    /** The handshake state of section 5.3, before the response. */
    function State(): Handshake
      reads this
    {
      Handshake(symmetric, Some(staticKey), ephemeralKey, Some(remoteStaticKey), None, true, None)
    }

    constructor (c: Crypto, protocolName: Data, staticKey: nat, remoteStaticKey: Data, prologue: Data)
      requires !IsZero(remoteStaticKey)
      ensures Valid() && phase == Ready && this.c == c
      ensures State() == IKInitiator(c, protocolName, prologue, staticKey, remoteStaticKey)
    {
      this.c, this.staticKey, this.remoteStaticKey := c, staticKey, remoteStaticKey;
      ephemeralKey, sendCipher, receiveCipher, phase, sealed := None, None, None, Ready, {};
      symmetric := MixHash(c, MixHash(c, InitializeSymmetric(c, protocolName), prologue), remoteStaticKey);
    }

    /** -> e, es, s, ss */
    method WriteMessage1(ephemeral: nat) returns (r: Option<Data>)
      requires Valid()
      modifies this
      ensures Valid()
      ensures old(phase) != Ready ==> r.None? && unchanged(this)
      ensures old(phase) == Ready ==>
                match WriteMessage(c, old(State()), IK_1, [], ephemeral)
                case None => r.None? && phase == Ready
                case Some((hs, message)) => r == Some(message) && State() == hs && phase == WaitingForResponse
    {
      hide Hkdf, WriteTokens, MixHash, MixKey, EncryptAndHash;
      if phase != Ready { return None; }
      IKWrites(c, State(), ephemeral);
      ephemeralKey := Some(ephemeral);
      var message := c.publicKey(ephemeral);
      symmetric := MixHash(c, symmetric, c.publicKey(ephemeral));
      var secret := c.dh(ephemeral, remoteStaticKey);
      if secret.None? { return None; }
      symmetric := MixKey(c, symmetric, secret.value);
      var encrypted := EncryptAndHash(c, symmetric, c.publicKey(staticKey));
      if encrypted.None? { return None; }
      symmetric := encrypted.value.0;
      message := message + encrypted.value.1;
      secret := c.dh(staticKey, remoteStaticKey);
      if secret.None? { return None; }
      symmetric := MixKey(c, symmetric, secret.value);
      encrypted := EncryptAndHash(c, symmetric, []);
      if encrypted.None? { return None; }
      symmetric := encrypted.value.0;
      message := message + encrypted.value.1;
      phase := WaitingForResponse;
      return Some(message);
    }

    /** <- e, ee, se */
    method ReadMessage2(message: Data) returns (ok: bool)
      requires Valid()
      modifies this
      ensures Valid()
      ensures ok <==>
                && old(phase) == WaitingForResponse && |message| == RESPONSE_BYTES && !IsZero(message[..KEY_BYTES])
                && var read := ReadMessage(c, old(State()), IK_2, message); read.Some? && read.value.1 == []
      ensures Lawful(c) ==>
                (ok <==>
                  && old(phase) == WaitingForResponse && KEY_BYTES <= |message| && !IsZero(message[..KEY_BYTES])
                  && var read := ReadMessage(c, old(State()), IK_2, message); read.Some? && read.value.1 == [])
      ensures ok ==>
                var hs := ReadMessage(c, old(State()), IK_2, message).value.0;
                && symmetric == hs.symmetric && phase == Transport
                && (sendCipher.value, receiveCipher.value) == Directions(c, hs)
      ensures ok && Ideal(c) ==> sendCipher.value.key != receiveCipher.value.key
      ensures !ok ==> phase == old(phase) && sendCipher == old(sendCipher) && receiveCipher == old(receiveCipher)
    {
      hide Hkdf, ReadTokens, MixHash, MixKey, DecryptAndHash;
      ResponsesAreShort(c, State(), IK_2, message);
      if phase != WaitingForResponse || |message| != RESPONSE_BYTES { return false; }
      var remote := message[..KEY_BYTES];
      if IsZero(remote) { return false; }
      IKReads(c, State(), message);
      symmetric := MixHash(c, symmetric, remote);
      var secret := c.dh(ephemeralKey.value, remote);
      if secret.None? { return false; }
      symmetric := MixKey(c, symmetric, secret.value);
      secret := c.dh(staticKey, remote);
      if secret.None? { return false; }
      symmetric := MixKey(c, symmetric, secret.value);
      var plain := DecryptAndHash(c, symmetric, message[KEY_BYTES..]);
      if plain.None? { return false; }
      symmetric := plain.value.0;
      if plain.value.1 != [] { return false; }
      var keys := Split(c, symmetric);
      if Ideal(c) { SplitsApart(c, symmetric, symmetric); }
      sendCipher, receiveCipher := Some(keys.0), Some(keys.1);
      sealed := {};
      phase := Transport;
      return true;
    }

    method EncryptTransport(plaintext: Data) returns (r: Option<Data>)
      requires Valid()
      modifies this
      ensures Valid()
      ensures r.None? ==> unchanged(this)
      ensures r.Some? <==> old(phase) == Transport && |plaintext| <= 16_368
                           && old(sendCipher.value.nonce) < MAX_NONCE
      ensures r.Some? ==>
                && old(phase) == Transport && |plaintext| <= 16_368
                && var cs := old(sendCipher.value);
                && cs.nonce !in old(sealed) && sealed == old(sealed) + {cs.nonce}
                && r.value == c.seal(cs.key.value, cs.nonce, [], plaintext)
                && sendCipher == Some(cs.(nonce := cs.nonce + 1)) && receiveCipher == old(receiveCipher)
                   && phase == Transport
    {
      if phase != Transport || |plaintext| > MAX_PLAINTEXT { return None; }
      var encrypted := Encrypt(c, sendCipher.value, [], plaintext);
      if encrypted.None? { return None; }
      sealed := sealed + {sendCipher.value.nonce};
      sendCipher := Some(encrypted.value.0);
      return Some(encrypted.value.1);
    }

    /** A message that does not open changes nothing. */
    method DecryptTransport(ciphertext: Data) returns (r: Option<Data>)
      requires Valid()
      modifies this
      ensures Valid()
      ensures r.None? ==> unchanged(this)
      ensures old(phase) == Transport && |ciphertext| <= 16_384 ==>
                match Decrypt(c, old(receiveCipher.value), [], ciphertext)
                case None => r.None?
                case Some((cs, plaintext)) => r == Some(plaintext) && receiveCipher == Some(cs)
      ensures !(old(phase) == Transport && |ciphertext| <= 16_384) ==> r.None?
      ensures sendCipher == old(sendCipher) && phase == old(phase)
    {
      if phase != Transport || |ciphertext| > MAX_PLAINTEXT + TAG_BYTES { return None; }
      var decrypted := Decrypt(c, receiveCipher.value, [], ciphertext);
      if decrypted.None? { return None; }
      receiveCipher := Some(decrypted.value.0);
      return Some(decrypted.value.1);
    }
  }

  /** The first IK message, token by token. */
  lemma IKWrites(c: Crypto, hs: Handshake, ephemeral: nat)
    ensures WriteTokens(c, hs, IK_1, ephemeral) ==
              var e := WriteToken(c, hs, E, ephemeral).value;
              var es := MixToken(c, e.0, ES);
              if es.None? then None
              else
                var s := WriteToken(c, es.value, S, ephemeral);
                if s.None? then None
                else
                  var ss := MixToken(c, s.value.0, SS);
                  if ss.None? then None else Some((ss.value, e.1 + s.value.1))
  {
    var e := WriteToken(c, hs, E, ephemeral).value;
    assert IK_1 == [E] + [ES, S, SS] && [ES, S, SS] == [ES] + [S, SS] && [S, SS] == [S] + [SS] && [SS] == [SS] + [];
    WriteStep(c, hs, E, [ES, S, SS], ephemeral);
    WriteStep(c, e.0, ES, [S, SS], ephemeral);
    var es := MixToken(c, e.0, ES);
    if es.Some? {
      WriteStep(c, es.value, S, [SS], ephemeral);
      var s := WriteToken(c, es.value, S, ephemeral);
      if s.Some? {
        WriteStep(c, s.value.0, SS, [], ephemeral);
        assert forall d: Data :: d + [] == d;
        assert forall d: Data :: [] + d == d;
      }
    }
  }

  /** The IK response, token by token. */
  lemma IKReads(c: Crypto, hs: Handshake, message: Data)
    requires KEY_BYTES <= |message|
    ensures ReadTokens(c, hs, IK_2, message) ==
              var e := ReadToken(c, hs, E, message).value;
              var ee := MixToken(c, e.0, EE);
              if ee.None? then None
              else
                var se := MixToken(c, ee.value, SE);
                if se.None? then None else Some((se.value, e.1))
  {
    var e := ReadToken(c, hs, E, message).value;
    assert IK_2 == [E] + [EE, SE] && [EE, SE] == [EE] + [SE] && [SE] == [SE] + [];
    ReadStep(c, hs, E, [EE, SE], message);
    ReadStep(c, e.0, EE, [SE], e.1);
    var ee := MixToken(c, e.0, EE);
    if ee.Some? { ReadStep(c, ee.value, SE, [], e.1); }
  }

  class NoiseNNpsk0Initiator {
    const c: Crypto
    const psk: Data
    var ephemeralKey: Option<nat>
    var symmetric: Symmetric
    var sendCipher: Option<Cipher>
    var receiveCipher: Option<Cipher>
    var phase: NoisePhase
    /** The nonces that the send key has been used with. */
    ghost var sealed: set<nat>

    ghost predicate Valid()
      reads this
    {
      && (phase == WaitingForResponse ==> ephemeralKey.Some?)
      && (phase == Transport ==> sendCipher.Some? && receiveCipher.Some? && sendCipher.value.key.Some?
                                 && receiveCipher.value.key.Some?)
      && (sendCipher.Some? ==> forall n :: n in sealed ==> n < sendCipher.value.nonce)
      && (sendCipher.None? ==> sealed == {})
    }

    function State(): Handshake
      reads this
    {
      Handshake(symmetric, None, ephemeralKey, None, None, true, Some(psk))
    }

    constructor (c: Crypto, protocolName: Data, psk: Data, prologue: Data)
      requires |psk| == 32
      ensures Valid() && phase == Ready && this.c == c
      ensures State() == PskEnd(c, protocolName, prologue, psk, true)
    {
      this.c, this.psk := c, psk;
      ephemeralKey, sendCipher, receiveCipher, phase, sealed := None, None, None, Ready, {};
      symmetric := MixHash(c, InitializeSymmetric(c, protocolName), prologue);
    }

    /** -> psk, e */
    method WriteMessage1(ephemeral: nat) returns (r: Option<Data>)
      requires Valid()
      modifies this
      ensures Valid()
      ensures old(phase) != Ready ==> r.None? && unchanged(this)
      ensures old(phase) == Ready ==>
                match WriteMessage(c, old(State()), NN_PSK0_1, [], ephemeral)
                case None => r.None?
                case Some((hs, message)) => r == Some(message) && State() == hs && phase == WaitingForResponse
    {
      hide Hkdf, Hkdf3, WriteTokens, MixHash, MixKey, MixKeyAndHash, EncryptAndHash;
      if phase != Ready { return None; }
      PskWrites(c, State(), ephemeral);
      ephemeralKey := Some(ephemeral);
      symmetric := MixKeyAndHash(c, symmetric, psk);
      var key := c.publicKey(ephemeral);
      symmetric := MixHash(c, symmetric, key);
      symmetric := MixKey(c, symmetric, key);
      phase := WaitingForResponse;
      var encrypted := EncryptAndHash(c, symmetric, []);
      if encrypted.None? { return None; }
      symmetric := encrypted.value.0;
      return Some(key + encrypted.value.1);
    }

    /** <- e, ee */
    method ReadMessage2(message: Data) returns (ok: bool)
      requires Valid()
      modifies this
      ensures Valid()
      ensures ok <==>
                && old(phase) == WaitingForResponse && |message| == RESPONSE_BYTES && !IsZero(message[..KEY_BYTES])
                && var read := ReadMessage(c, old(State()), NN_PSK0_2, message); read.Some? && read.value.1 == []
      ensures Lawful(c) ==>
                (ok <==>
                  && old(phase) == WaitingForResponse && KEY_BYTES <= |message| && !IsZero(message[..KEY_BYTES])
                  && var read := ReadMessage(c, old(State()), NN_PSK0_2, message); read.Some? && read.value.1 == [])
      ensures ok ==>
                var hs := ReadMessage(c, old(State()), NN_PSK0_2, message).value.0;
                && symmetric == hs.symmetric && phase == Transport
                && (sendCipher.value, receiveCipher.value) == Directions(c, hs)
      ensures ok && Ideal(c) ==> sendCipher.value.key != receiveCipher.value.key
      ensures !ok ==> phase == old(phase) && sendCipher == old(sendCipher) && receiveCipher == old(receiveCipher)
    {
      hide Hkdf, Hkdf3, ReadTokens, MixHash, MixKey, MixKeyAndHash, DecryptAndHash;
      ResponsesAreShort(c, State(), NN_PSK0_2, message);
      if phase != WaitingForResponse || |message| != RESPONSE_BYTES { return false; }
      var remote := message[..KEY_BYTES];
      if IsZero(remote) { return false; }
      PskReads(c, State(), message);
      symmetric := MixHash(c, symmetric, remote);
      symmetric := MixKey(c, symmetric, remote);
      var secret := c.dh(ephemeralKey.value, remote);
      if secret.None? { return false; }
      symmetric := MixKey(c, symmetric, secret.value);
      var plain := DecryptAndHash(c, symmetric, message[KEY_BYTES..]);
      if plain.None? { return false; }
      symmetric := plain.value.0;
      if plain.value.1 != [] { return false; }
      var keys := Split(c, symmetric);
      if Ideal(c) { SplitsApart(c, symmetric, symmetric); }
      sendCipher, receiveCipher := Some(keys.0), Some(keys.1);
      sealed := {};
      phase := Transport;
      return true;
    }

    method EncryptTransport(plaintext: Data) returns (r: Option<Data>)
      requires Valid()
      modifies this
      ensures Valid()
      ensures r.None? ==> unchanged(this)
      ensures r.Some? <==> old(phase) == Transport && |plaintext| <= 16_368
                           && old(sendCipher.value.nonce) < MAX_NONCE
      ensures r.Some? ==>
                && old(phase) == Transport && |plaintext| <= 16_368
                && var cs := old(sendCipher.value);
                && cs.nonce !in old(sealed) && sealed == old(sealed) + {cs.nonce}
                && r.value == c.seal(cs.key.value, cs.nonce, [], plaintext)
                && sendCipher == Some(cs.(nonce := cs.nonce + 1)) && receiveCipher == old(receiveCipher)
                   && phase == Transport
    {
      if phase != Transport || |plaintext| > MAX_PLAINTEXT { return None; }
      var encrypted := Encrypt(c, sendCipher.value, [], plaintext);
      if encrypted.None? { return None; }
      sealed := sealed + {sendCipher.value.nonce};
      sendCipher := Some(encrypted.value.0);
      return Some(encrypted.value.1);
    }

    /** A message that does not open changes nothing. */
    method DecryptTransport(ciphertext: Data) returns (r: Option<Data>)
      requires Valid()
      modifies this
      ensures Valid()
      ensures r.None? ==> unchanged(this)
      ensures old(phase) == Transport && |ciphertext| <= 16_384 ==>
                match Decrypt(c, old(receiveCipher.value), [], ciphertext)
                case None => r.None?
                case Some((cs, plaintext)) => r == Some(plaintext) && receiveCipher == Some(cs)
      ensures !(old(phase) == Transport && |ciphertext| <= 16_384) ==> r.None?
      ensures sendCipher == old(sendCipher) && phase == old(phase)
    {
      if phase != Transport || |ciphertext| > MAX_PLAINTEXT + TAG_BYTES { return None; }
      var decrypted := Decrypt(c, receiveCipher.value, [], ciphertext);
      if decrypted.None? { return None; }
      receiveCipher := Some(decrypted.value.0);
      return Some(decrypted.value.1);
    }
  }

  /** The first NNpsk0 message, token by token. */
  lemma PskWrites(c: Crypto, hs: Handshake, ephemeral: nat)
    requires hs.psk.Some?
    ensures WriteTokens(c, hs, NN_PSK0_1, ephemeral)
            == var mixed := MixToken(c, hs, PSK).value; Some(WriteToken(c, mixed, E, ephemeral).value)
  {
    var mixed := MixToken(c, hs, PSK).value;
    assert NN_PSK0_1 == [PSK] + [E] && [E] == [E] + [];
    WriteStep(c, hs, PSK, [E], ephemeral);
    WriteStep(c, mixed, E, [], ephemeral);
    assert forall d: Data :: d + [] == d;
    assert forall d: Data :: [] + d == d;
  }

  /** The NNpsk0 response, token by token. */
  lemma PskReads(c: Crypto, hs: Handshake, message: Data)
    requires KEY_BYTES <= |message|
    ensures ReadTokens(c, hs, NN_PSK0_2, message) ==
              var e := ReadToken(c, hs, E, message).value;
              var ee := MixToken(c, e.0, EE);
              if ee.None? then None else Some((ee.value, e.1))
  {
    var e := ReadToken(c, hs, E, message).value;
    assert NN_PSK0_2 == [E] + [EE] && [EE] == [EE] + [];
    ReadStep(c, hs, E, [EE], message);
    ReadStep(c, e.0, EE, [], e.1);
  }
}
