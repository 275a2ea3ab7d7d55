/** Why a handshake binds its two ends: over ideal primitives a message is read only by an end that agrees with its
    writer on all that went before, so a wrong PSK, a wrong static key or another prologue is found out at once. */
module NoiseBinding {
  import opened Records
  import opened Noise
  import opened NoiseInitiators

  /** Two ends that agree on everything mixed and hashed so far. */
  predicate Twin(s: Symmetric, t: Symmetric) {
    s.chainingKey == t.chainingKey && s.handshakeHash == t.handshakeHash
  }

  /** Two states that have come the same way: with or without a PSK, with or without a key, and where the keys are the
      same the chaining keys are. */
  predicate SameWay(x: Handshake, y: Handshake) {
    && x.psk.Some? == y.psk.Some? && x.symmetric.cipher.key.Some? == y.symmetric.cipher.key.Some?
    && |x.symmetric.handshakeHash| == |y.symmetric.handshakeHash| == HASH_BYTES
    && (x.symmetric.cipher.key.Some? && x.symmetric.cipher.key == y.symmetric.cipher.key ==>
          x.symmetric.chainingKey == y.symmetric.chainingKey)
  }

  lemma SameEnds(a: Data, b: Data, p: Data, q: Data)
    requires a + p == b + q && |a| == |b|
    ensures a == b && p == q
  {
    assert a == (a + p)[..|a|] && b == (b + q)[..|b|];
    assert p == (a + p)[|a|..] && q == (b + q)[|b|..];
  }

  /** A hash tells what was hashed before. */
  lemma HashTells(c: Crypto, s: Symmetric, t: Symmetric, d: Data, e: Data)
    requires Ideal(c) && |s.handshakeHash| == |t.handshakeHash|
    requires MixHash(c, s, d).handshakeHash == MixHash(c, t, e).handshakeHash
    ensures s.handshakeHash == t.handshakeHash && d == e
  {
    assert c.hash(s.handshakeHash + d) == c.hash(t.handshakeHash + e);
    SameEnds(s.handshakeHash, t.handshakeHash, d, e);
  }

  /** A derived key tells the chaining key and the secret that it was derived from. */
  lemma KeyTells(c: Crypto, s: Symmetric, t: Symmetric, d: Data, e: Data)
    requires Ideal(c)
    ensures var u, v := MixKey(c, s, d), MixKey(c, t, e);
            && (u.chainingKey == v.chainingKey <==> s.chainingKey == t.chainingKey && d == e)
            && (u.cipher.key == v.cipher.key <==> s.chainingKey == t.chainingKey && d == e)
  {
    var p, q := c.hmac(s.chainingKey, d), c.hmac(t.chainingKey, e);
    HkdfIsRfc5869(c, s.chainingKey, d);
    HkdfIsRfc5869(c, t.chainingKey, e);
    BlocksDiffer(c, p, 1, q, 1);
    BlocksDiffer(c, p, 2, q, 2);
    assert p == q <==> s.chainingKey == t.chainingKey && d == e;
  }

  lemma PskTells(c: Crypto, s: Symmetric, t: Symmetric, d: Data, e: Data)
    requires Ideal(c) && |s.handshakeHash| == |t.handshakeHash|
    ensures var u, v := MixKeyAndHash(c, s, d), MixKeyAndHash(c, t, e);
            && (u.chainingKey == v.chainingKey <==> s.chainingKey == t.chainingKey && d == e)
            && (u.cipher.key == v.cipher.key <==> s.chainingKey == t.chainingKey && d == e)
            && (u.handshakeHash == v.handshakeHash ==> s.handshakeHash == t.handshakeHash)
  {
    var p, q := c.hmac(s.chainingKey, d), c.hmac(t.chainingKey, e);
    HkdfIsRfc5869(c, s.chainingKey, d);
    HkdfIsRfc5869(c, t.chainingKey, e);
    BlocksDiffer(c, p, 1, q, 1);
    BlocksDiffer(c, p, 3, q, 3);
    assert p == q <==> s.chainingKey == t.chainingKey && d == e;
    var (k1, h1, _) := Hkdf3(c, s.chainingKey, d);
    var (k2, h2, _) := Hkdf3(c, t.chainingKey, e);
    if MixKeyAndHash(c, s, d).handshakeHash == MixKeyAndHash(c, t, e).handshakeHash {
      HashTells(c, s.(chainingKey := k1), t.(chainingKey := k2), h1, h2);
    }
  }

  /** What one end wrote for a token and the other has read leaves them twins only if they were twins before. */
  lemma TokenBinds(c: Crypto, x: Handshake, y: Handshake, t: Token, ephemeral: nat, rest: Data)
    requires Lawful(c) && Ideal(c) && SameWay(x, y)
    requires WriteToken(c, x, t, ephemeral).Some?
    requires ReadToken(c, y, t, WriteToken(c, x, t, ephemeral).value.1 + rest).Some?
    ensures var (w, bytes) := WriteToken(c, x, t, ephemeral).value;
            var (r, left) := ReadToken(c, y, t, bytes + rest).value;
            left == rest && SameWay(w, r) && (Twin(w.symmetric, r.symmetric) ==> Twin(x.symmetric, y.symmetric))
  {
    var (w, bytes) := WriteToken(c, x, t, ephemeral).value;
    assert (bytes + rest)[..|bytes|] == bytes && (bytes + rest)[|bytes|..] == rest;
    hide MixKey, MixKeyAndHash;
    match t
    case E =>
      EphemeralBinds(c, x, y, bytes);
    case S =>
      StaticBinds(c, x, y, ephemeral, rest);
    case _ =>
      MixBinds(c, x, y, t);
      assert bytes + rest == rest;
  }

  lemma EphemeralBinds(c: Crypto, x: Handshake, y: Handshake, key: Data)
    requires Lawful(c) && Ideal(c) && SameWay(x, y)
    ensures var s, t := MixEphemeral(c, x, key), MixEphemeral(c, y, key);
            && s.cipher.key.Some? == t.cipher.key.Some?
            && |s.handshakeHash| == |t.handshakeHash| == HASH_BYTES
            && (s.cipher.key.Some? && s.cipher.key == t.cipher.key ==> s.chainingKey == t.chainingKey)
            && (Twin(s, t) ==> Twin(x.symmetric, y.symmetric))
  {
    var s, t := MixEphemeral(c, x, key), MixEphemeral(c, y, key);
    var u, v := MixHash(c, x.symmetric, key), MixHash(c, y.symmetric, key);
    if x.psk.Some? { KeyTells(c, u, v, key, key); }
    if u.handshakeHash == v.handshakeHash { HashTells(c, x.symmetric, y.symmetric, key, key); }
    hide Hkdf;
  }

  lemma MixBinds(c: Crypto, x: Handshake, y: Handshake, t: Token)
    requires Ideal(c) && SameWay(x, y) && t != E && t != S && MixToken(c, x, t).Some? && MixToken(c, y, t).Some?
    ensures var w, r := MixToken(c, x, t).value, MixToken(c, y, t).value;
            SameWay(w, r) && (Twin(w.symmetric, r.symmetric) ==> Twin(x.symmetric, y.symmetric))
  {
    if t == PSK {
      PskTells(c, x.symmetric, y.symmetric, x.psk.value, y.psk.value);
    } else {
      KeyTells(c, x.symmetric, y.symmetric, Secret(c, x, t).value, Secret(c, y, t).value);
    }
    hide Hkdf, Hkdf3, Secret;
  }

  lemma StaticBinds(c: Crypto, x: Handshake, y: Handshake, ephemeral: nat, rest: Data)
    requires Lawful(c) && Ideal(c) && SameWay(x, y)
    requires WriteToken(c, x, S, ephemeral).Some?
    requires ReadToken(c, y, S, WriteToken(c, x, S, ephemeral).value.1 + rest).Some?
    ensures var (w, bytes) := WriteToken(c, x, S, ephemeral).value;
            var (r, left) := ReadToken(c, y, S, bytes + rest).value;
            left == rest && SameWay(w, r) && (Twin(w.symmetric, r.symmetric) ==> Twin(x.symmetric, y.symmetric))
  {
    var (w, bytes) := WriteToken(c, x, S, ephemeral).value;
    var key := c.publicKey(x.s.value);
    DecryptUndoesEncrypt(c, x.symmetric.cipher, x.symmetric.handshakeHash, key);
    assert |key| == KEY_BYTES;
    assert (bytes + rest)[..|bytes|] == bytes && (bytes + rest)[|bytes|..] == rest;
    var (r, left) := ReadToken(c, y, S, bytes + rest).value;
    if w.symmetric.handshakeHash == r.symmetric.handshakeHash {
      HashTells(c, x.symmetric, y.symmetric, bytes, bytes);
    }
  }

  lemma {:induction false} TokensBind(c: Crypto, x: Handshake, y: Handshake, tokens: seq<Token>, ephemeral: nat,
                                      rest: Data)
    requires Lawful(c) && Ideal(c) && SameWay(x, y)
    requires WriteTokens(c, x, tokens, ephemeral).Some?
    requires ReadTokens(c, y, tokens, WriteTokens(c, x, tokens, ephemeral).value.1 + rest).Some?
    ensures var (w, bytes) := WriteTokens(c, x, tokens, ephemeral).value;
            var (r, left) := ReadTokens(c, y, tokens, bytes + rest).value;
            left == rest && SameWay(w, r) && (Twin(w.symmetric, r.symmetric) ==> Twin(x.symmetric, y.symmetric))
    decreases |tokens|
  {
    hide Lawful, Ideal, WriteToken, ReadToken, SameWay, Twin;
    if tokens == [] {
      assert [] + rest == rest;
    } else {
      var (x1, b1) := WriteToken(c, x, tokens[0], ephemeral).value;
      var (x2, b2) := WriteTokens(c, x1, tokens[1..], ephemeral).value;
      assert (b1 + b2) + rest == b1 + (b2 + rest);
      TokenBinds(c, x, y, tokens[0], ephemeral, b2 + rest);
      var (y1, left) := ReadToken(c, y, tokens[0], b1 + (b2 + rest)).value;
      TokensBind(c, x1, y1, tokens[1..], ephemeral, rest);
    }
  }

  /** A message whose payload is sealed is read only by a twin of the end that wrote it. */
  lemma MessageBinds(c: Crypto, x: Handshake, y: Handshake, tokens: seq<Token>, payload: Data, ephemeral: nat)
    requires Lawful(c) && Ideal(c) && SameWay(x, y) && WriteMessage(c, x, tokens, payload, ephemeral).Some?
    requires WriteTokens(c, x, tokens, ephemeral).value.0.symmetric.cipher.key.Some?
    requires ReadMessage(c, y, tokens, WriteMessage(c, x, tokens, payload, ephemeral).value.1).Some?
    ensures Twin(x.symmetric, y.symmetric)
  {
    var (x1, b1) := WriteTokens(c, x, tokens, ephemeral).value;
    var (s1, b2) := EncryptAndHash(c, x1.symmetric, payload).value;
    TokensBind(c, x, y, tokens, ephemeral, b2);
    var (y1, left) := ReadTokens(c, y, tokens, b1 + b2).value;
    OpensForTwin(c, x1, y1, payload);
    hide *;
  }

  lemma OpensForTwin(c: Crypto, x: Handshake, y: Handshake, payload: Data)
    requires Ideal(c) && SameWay(x, y) && x.symmetric.cipher.key.Some?
    requires EncryptAndHash(c, x.symmetric, payload).Some?
    requires DecryptAndHash(c, y.symmetric, EncryptAndHash(c, x.symmetric, payload).value.1).Some?
    ensures Twin(x.symmetric, y.symmetric)
  {
    var k, n, ad := x.symmetric.cipher.key.value, x.symmetric.cipher.nonce, x.symmetric.handshakeHash;
    var l, m, bd := y.symmetric.cipher.key.value, y.symmetric.cipher.nonce, y.symmetric.handshakeHash;
    var sealed := c.seal(k, n, ad, payload);
    var plain := c.open(l, m, bd, sealed).value;
    assert c.open(l, m, bd, sealed) == Some(plain);
    assert sealed == c.seal(l, m, bd, plain);
  }

  // ----- so the two patterns of the controller find out whom they talk to

  lemma PrologueTells(c: Crypto, s: Symmetric, prologue: Data, other: Data)
    requires Ideal(c) && MixHash(c, s, prologue).handshakeHash == MixHash(c, s, other).handshakeHash
    ensures prologue == other
  {
    HashTells(c, s, s, prologue, other);
  }

  /** Tokens that end with one that mixes a key leave a key. */
  lemma {:induction false} MixingLeavesKey(c: Crypto, hs: Handshake, tokens: seq<Token>, ephemeral: nat)
    requires WriteTokens(c, hs, tokens, ephemeral).Some?
    requires hs.symmetric.cipher.key.Some? || exists t :: t in tokens && t != E && t != S
    ensures WriteTokens(c, hs, tokens, ephemeral).value.0.symmetric.cipher.key.Some?
    decreases |tokens|
  {
    if tokens != [] {
      hide Hkdf, Hkdf3, Secret;
      assert tokens[0] != E && tokens[0] != S ==>
               WriteToken(c, hs, tokens[0], ephemeral).value.0.symmetric.cipher.key.Some?;
      assert hs.symmetric.cipher.key.Some? ==>
               WriteToken(c, hs, tokens[0], ephemeral).value.0.symmetric.cipher.key.Some?;
      assert forall t :: t in tokens ==> t == tokens[0] || t in tokens[1..];
      MixingLeavesKey(c, WriteToken(c, hs, tokens[0], ephemeral).value.0, tokens[1..], ephemeral);
    }
  }

  /** IK: a responder reads the first message if and only if it holds the static key that the initiator meant and has
      the same prologue. */
  lemma IKIsReadByItsResponder(c: Crypto, protocolName: Data, prologue: Data, other: Data, si: nat, rs: Data, sr: nat,
                               ei: nat)
    requires Lawful(c) && Ideal(c)
    requires WriteMessage(c, IKInitiator(c, protocolName, prologue, si, rs), IK_1, [], ei).Some?
    ensures var message := WriteMessage(c, IKInitiator(c, protocolName, prologue, si, rs), IK_1, [], ei).value.1;
            ReadMessage(c, IKResponder(c, protocolName, other, sr), IK_1, message).Some?
            <==> rs == c.publicKey(sr) && prologue == other
  {
    hide WriteMessage, ReadMessage, WriteTokens, ReadTokens, InitializeSymmetric;
    var i0, r0 := IKInitiator(c, protocolName, prologue, si, rs), IKResponder(c, protocolName, other, sr);
    var message := WriteMessage(c, i0, IK_1, [], ei).value.1;
    PatternsSendStatics();
    if rs == c.publicKey(sr) && prologue == other { MessageMatches(c, i0, r0, IK_1, [], ei); }
    if ReadMessage(c, r0, IK_1, message).Some? {
      FirstMessageHasKey(c, i0, IK_1, ei, SS);
      MessageBinds(c, i0, r0, IK_1, [], ei);
      var s := InitializeSymmetric(c, protocolName);
      HashTells(c, MixHash(c, s, prologue), MixHash(c, s, other), rs, c.publicKey(sr));
      PrologueTells(c, s, prologue, other);
    }
  }

  lemma FirstMessageHasKey(c: Crypto, hs: Handshake, tokens: seq<Token>, ephemeral: nat, t: Token)
    requires WriteMessage(c, hs, tokens, [], ephemeral).Some?
    requires hs.symmetric.cipher.key.Some? || (t in tokens && t != E && t != S)
    ensures WriteTokens(c, hs, tokens, ephemeral).Some?
    ensures WriteTokens(c, hs, tokens, ephemeral).value.0.symmetric.cipher.key.Some?
  {
    MixingLeavesKey(c, hs, tokens, ephemeral);
  }

  /** Once the PSK is mixed in, the first NNpsk0 message is that of the token e alone. */
  lemma AfterPsk(c: Crypto, x: Handshake, y: Handshake, message: Data, ephemeral: nat)
    requires x.psk.Some? && y.psk.Some?
    ensures WriteMessage(c, x, NN_PSK0_1, [], ephemeral)
            == WriteMessage(c, MixToken(c, x, PSK).value, [E], [], ephemeral)
    ensures ReadMessage(c, y, NN_PSK0_1, message) == ReadMessage(c, MixToken(c, y, PSK).value, [E], message)
  {
    hide MixKeyAndHash, EncryptAndHash, DecryptAndHash, MixEphemeral;
    assert NN_PSK0_1 == [PSK] + [E];
    WriteStep(c, x, PSK, [E], ephemeral);
    ReadStep(c, y, PSK, [E], message);
    assert forall d: Data :: [] + d == d;
  }

  lemma PskLeavesKey(c: Crypto, x: Handshake)
    requires x.psk.Some?
    ensures MixToken(c, x, PSK).value.symmetric.cipher.key.Some?
  {
    hide Hkdf3;
  }

  lemma TwinsAgree(x: Handshake, y: Handshake, w: Handshake, r: Handshake)
    requires Twin(w.symmetric, r.symmetric) && (Twin(w.symmetric, r.symmetric) ==> Twin(x.symmetric, y.symmetric))
    ensures w.symmetric.chainingKey == r.symmetric.chainingKey
    ensures x.symmetric.handshakeHash == y.symmetric.handshakeHash
  {
  }

  /** NNpsk0: the other end reads the first message if and only if it has the same PSK and the same prologue. */
  lemma PskIsReadByItsHolder(c: Crypto, protocolName: Data, prologue: Data, other: Data, psk: Data, held: Data, ei: nat)
    requires Lawful(c) && Ideal(c)
    requires WriteMessage(c, PskEnd(c, protocolName, prologue, psk, true), NN_PSK0_1, [], ei).Some?
    ensures var message := WriteMessage(c, PskEnd(c, protocolName, prologue, psk, true), NN_PSK0_1, [], ei).value.1;
            ReadMessage(c, PskEnd(c, protocolName, other, held, false), NN_PSK0_1, message).Some?
            <==> psk == held && prologue == other
  {
    hide WriteMessage, ReadMessage, WriteTokens, ReadTokens, InitializeSymmetric, MixKeyAndHash, Twin;
    var i0, r0 := PskEnd(c, protocolName, prologue, psk, true), PskEnd(c, protocolName, other, held, false);
    var message := WriteMessage(c, i0, NN_PSK0_1, [], ei).value.1;
    PatternsSendStatics();
    if psk == held && prologue == other { MessageMatches(c, i0, r0, NN_PSK0_1, [], ei); }
    if ReadMessage(c, r0, NN_PSK0_1, message).Some? {
      var i1, r1 := MixToken(c, i0, PSK).value, MixToken(c, r0, PSK).value;
      AfterPsk(c, i0, r0, message, ei);
      PskTells(c, i0.symmetric, r0.symmetric, psk, held);
      MixBinds(c, i0, r0, PSK);
      PskLeavesKey(c, i0);
      FirstMessageHasKey(c, i1, [E], ei, E);
      MessageBinds(c, i1, r1, [E], [], ei);
      TwinsAgree(i0, r0, i1, r1);
      PrologueTells(c, InitializeSymmetric(c, protocolName), prologue, other);
    }
  }
}
