/** The Noise Protocol Framework, revision 34, over any hash, HMAC, AEAD and DH that keep their laws: cipher
    and symmetric states, a generic token interpreter, and why two matching ends agree. */
module Noise {
  import opened Records

  type Data = seq<nat>

  const HASH_BYTES := 32
  const KEY_BYTES := 32
  const TAG_BYTES := 16
  const MAX_NONCE := 0xffff_ffff_ffff_ffff

  /** The primitives, left open.  `dh` fails for a key that is no point or whose secret is all zeros. */
  datatype Crypto = Crypto(
    hash: Data -> Data,
    hmac: (Data, Data) -> Data,
    publicKey: nat -> Data,
    dh: (nat, Data) -> Option<Data>,
    seal: (Data, nat, Data, Data) -> Data,
    open: (Data, nat, Data, Data) -> Option<Data>)

  /** All that is asked of them. */
  ghost predicate Lawful(c: Crypto) {
    && (forall k :: |c.publicKey(k)| == KEY_BYTES)
    && (forall a, b :: c.dh(a, c.publicKey(b)) == c.dh(b, c.publicKey(a)))
    && (forall k, n, ad, p :: c.open(k, n, ad, c.seal(k, n, ad, p)) == Some(p))
    && (forall k, n, ad, p :: |c.seal(k, n, ad, p)| == |p| + TAG_BYTES)
    && (forall k, n, ad, s :: c.open(k, n, ad, s).Some? ==> |s| == |c.open(k, n, ad, s).value| + TAG_BYTES)
  }

  // ----- section 5.1: the CipherState

  datatype Cipher = Cipher(key: Option<Data>, nonce: nat)

  function Encrypt(c: Crypto, cs: Cipher, ad: Data, plaintext: Data): Option<(Cipher, Data)> {
    if cs.key.None? then Some((cs, plaintext))
    else if cs.nonce >= MAX_NONCE then None
    else Some((cs.(nonce := cs.nonce + 1), c.seal(cs.key.value, cs.nonce, ad, plaintext)))
  }

  function Decrypt(c: Crypto, cs: Cipher, ad: Data, ciphertext: Data): Option<(Cipher, Data)> {
    if cs.key.None? then Some((cs, ciphertext))
    else if cs.nonce >= MAX_NONCE || |ciphertext| < TAG_BYTES then None
    else
      var plaintext := c.open(cs.key.value, cs.nonce, ad, ciphertext);
      if plaintext.None? then None else Some((cs.(nonce := cs.nonce + 1), plaintext.value))
  }

  lemma DecryptUndoesEncrypt(c: Crypto, cs: Cipher, ad: Data, plaintext: Data)
    requires Lawful(c) && Encrypt(c, cs, ad, plaintext).Some?
    ensures var (next, ciphertext) := Encrypt(c, cs, ad, plaintext).value;
            && Decrypt(c, cs, ad, ciphertext) == Some((next, plaintext))
            && |ciphertext| == |plaintext| + (if cs.key.Some? then TAG_BYTES else 0)
  {
  }

  // ----- section 5.2: the SymmetricState

  datatype Symmetric = Symmetric(chainingKey: Data, handshakeHash: Data, cipher: Cipher)

  function Hkdf(c: Crypto, chainingKey: Data, input: Data): (Data, Data) {
    var temporary := c.hmac(chainingKey, input);
    var output1 := c.hmac(temporary, [1]);
    (output1, c.hmac(temporary, output1 + [2]))
  }

  function Hkdf3(c: Crypto, chainingKey: Data, input: Data): (Data, Data, Data) {
    var temporary := c.hmac(chainingKey, input);
    var output1 := c.hmac(temporary, [1]);
    var output2 := c.hmac(temporary, output1 + [2]);
    (output1, output2, c.hmac(temporary, output2 + [3]))
  }

  function InitializeSymmetric(c: Crypto, protocolName: Data): Symmetric {
    var h := if |protocolName| <= HASH_BYTES then protocolName + seq(HASH_BYTES - |protocolName|, _ => 0)
        else c.hash(protocolName);
    Symmetric(h, h, Cipher(None, 0))
  }

  function MixHash(c: Crypto, s: Symmetric, data: Data): Symmetric {
    s.(handshakeHash := c.hash(s.handshakeHash + data))
  }

  function MixKey(c: Crypto, s: Symmetric, input: Data): Symmetric {
    var (ck, k) := Hkdf(c, s.chainingKey, input);
    s.(chainingKey := ck, cipher := Cipher(Some(k), 0))
  }

  function MixKeyAndHash(c: Crypto, s: Symmetric, input: Data): Symmetric {
    var (ck, h, k) := Hkdf3(c, s.chainingKey, input);
    MixHash(c, s.(chainingKey := ck), h).(cipher := Cipher(Some(k), 0))
  }

  function EncryptAndHash(c: Crypto, s: Symmetric, plaintext: Data): Option<(Symmetric, Data)> {
    var r := Encrypt(c, s.cipher, s.handshakeHash, plaintext);
    if r.None? then None else Some((MixHash(c, s.(cipher := r.value.0), r.value.1), r.value.1))
  }

  function DecryptAndHash(c: Crypto, s: Symmetric, ciphertext: Data): Option<(Symmetric, Data)> {
    var r := Decrypt(c, s.cipher, s.handshakeHash, ciphertext);
    if r.None? then None else Some((MixHash(c, s.(cipher := r.value.0), ciphertext), r.value.1))
  }

  function Split(c: Crypto, s: Symmetric): (Cipher, Cipher) {
    var (k1, k2) := Hkdf(c, s.chainingKey, []);
    (Cipher(Some(k1), 0), Cipher(Some(k2), 0))
  }

  // ----- what tells keys apart

  /** What is asked of them besides: different inputs never collide, and nothing opens but what was sealed under the
      same key, nonce and associated data. */
  ghost predicate Ideal(c: Crypto) {
    && (forall d, e :: c.hash(d) == c.hash(e) ==> d == e)
    && (forall d :: |c.hash(d)| == HASH_BYTES)
    && (forall k, l, d, e :: c.hmac(k, d) == c.hmac(l, e) ==> k == l && d == e)
    && (forall k, n, ad, s, p :: c.open(k, n, ad, s) == Some(p) ==> s == c.seal(k, n, ad, p))
    && (forall k, n, ad, p, l, m, bd, q :: c.seal(k, n, ad, p) == c.seal(l, m, bd, q) ==>
          k == l && n == m && ad == bd && p == q)
  }

  /** HKDF-Expand of RFC 5869, section 2.3, with no info: its n-th block. */
  function Block(c: Crypto, prk: Data, n: nat): Data {
    if n == 0 then [] else c.hmac(prk, Block(c, prk, n - 1) + [n])
  }

  /** The two derivations are HKDF with the chaining key for salt (section 2.2 of RFC 5869) and no info. */
  lemma HkdfIsRfc5869(c: Crypto, chainingKey: Data, input: Data)
    ensures var prk := c.hmac(chainingKey, input);
            && Hkdf(c, chainingKey, input) == (Block(c, prk, 1), Block(c, prk, 2))
            && Hkdf3(c, chainingKey, input) == (Block(c, prk, 1), Block(c, prk, 2), Block(c, prk, 3))
  {
    var prk := c.hmac(chainingKey, input);
    assert Block(c, prk, 0) + [1] == [1];
    assert Block(c, prk, 2) == c.hmac(prk, Block(c, prk, 1) + [2]);
    assert Block(c, prk, 3) == c.hmac(prk, Block(c, prk, 2) + [3]);
  }

  /** Outputs of two derivations are the same only for the same chaining key, input and position. */
  lemma {:induction false} BlocksDiffer(c: Crypto, prk: Data, n: nat, other: Data, m: nat)
    requires Ideal(c) && 0 < n && 0 < m
    ensures Block(c, prk, n) == Block(c, other, m) <==> prk == other && n == m
  {
    if Block(c, prk, n) == Block(c, other, m) {
      var a, b := Block(c, prk, n - 1) + [n], Block(c, other, m - 1) + [m];
      assert a == b && a[|a| - 1] == n && b[|b| - 1] == m;
    }
  }

  /** The transport keys of two handshakes are different unless they are of the same direction and come from the same
      chaining key; in particular the two directions of one handshake never share a key. */
  lemma SplitsApart(c: Crypto, s: Symmetric, t: Symmetric)
    requires Ideal(c)
    ensures var (s1, s2) := Split(c, s); var (t1, t2) := Split(c, t);
            && s1.key != t2.key && s2.key != t1.key
            && (s1.key == t1.key <==> s.chainingKey == t.chainingKey)
            && (s2.key == t2.key <==> s.chainingKey == t.chainingKey)
            && s1.nonce == s2.nonce == 0
  {
    var p, q := c.hmac(s.chainingKey, []), c.hmac(t.chainingKey, []);
    HkdfIsRfc5869(c, s.chainingKey, []);
    HkdfIsRfc5869(c, t.chainingKey, []);
    BlocksDiffer(c, p, 1, q, 2);
    BlocksDiffer(c, p, 2, q, 1);
    BlocksDiffer(c, p, 1, q, 1);
    BlocksDiffer(c, p, 2, q, 2);
    assert p == q <==> s.chainingKey == t.chainingKey;
  }

  // ----- section 5.3: the HandshakeState, with the psk token of section 9

  datatype Token = E | S | EE | ES | SE | SS | PSK

  datatype Handshake = Handshake(
    symmetric: Symmetric, s: Option<nat>, e: Option<nat>, rs: Option<Data>, re: Option<Data>,
    initiator: bool, psk: Option<Data>)

  function Agree(c: Crypto, own: Option<nat>, remote: Option<Data>): Option<Data> {
    if own.Some? && remote.Some? then c.dh(own.value, remote.value) else None
  }

  /** The shared secret that a DH token mixes in. */
  function Secret(c: Crypto, hs: Handshake, t: Token): Option<Data> {
    match t
    case EE => Agree(c, hs.e, hs.re)
    case ES => if hs.initiator then Agree(c, hs.e, hs.rs) else Agree(c, hs.s, hs.re)
    case SE => if hs.initiator then Agree(c, hs.s, hs.re) else Agree(c, hs.e, hs.rs)
    case SS => Agree(c, hs.s, hs.rs)
    case _ => None
  }

  /** An ephemeral key is hashed and, in a handshake with a PSK, mixed into the key as well. */
  function MixEphemeral(c: Crypto, hs: Handshake, key: Data): Symmetric {
    var hashed := MixHash(c, hs.symmetric, key);
    if hs.psk.Some? then MixKey(c, hashed, key) else hashed
  }

  /** The tokens that neither send nor read a key. */
  function MixToken(c: Crypto, hs: Handshake, t: Token): Option<Handshake> {
    if t == PSK then
      (if hs.psk.None? then None else Some(hs.(symmetric := MixKeyAndHash(c, hs.symmetric, hs.psk.value))))
    else
      var secret := Secret(c, hs, t);
      if secret.None? then None else Some(hs.(symmetric := MixKey(c, hs.symmetric, secret.value)))
  }

  function WriteToken(c: Crypto, hs: Handshake, t: Token, ephemeral: nat): Option<(Handshake, Data)> {
    match t
    case E =>
      var key := c.publicKey(ephemeral);
      Some((hs.(e := Some(ephemeral), symmetric := MixEphemeral(c, hs, key)), key))
    case S =>
      if hs.s.None? then None
      else
        var r := EncryptAndHash(c, hs.symmetric, c.publicKey(hs.s.value));
        if r.None? then None else Some((hs.(symmetric := r.value.0), r.value.1))
    case _ =>
      var mixed := MixToken(c, hs, t);
      if mixed.None? then None else Some((mixed.value, []))
  }

  function ReadToken(c: Crypto, hs: Handshake, t: Token, message: Data): Option<(Handshake, Data)> {
    match t
    case E =>
      if |message| < KEY_BYTES then None
      else
        var key := message[..KEY_BYTES];
        Some((hs.(re := Some(key), symmetric := MixEphemeral(c, hs, key)), message[KEY_BYTES..]))
    case S =>
      var size := if hs.symmetric.cipher.key.Some? then KEY_BYTES + TAG_BYTES else KEY_BYTES;
      if |message| < size then None
      else
        var r := DecryptAndHash(c, hs.symmetric, message[..size]);
        if r.None? then None else Some((hs.(rs := Some(r.value.1), symmetric := r.value.0), message[size..]))
    case _ =>
      var mixed := MixToken(c, hs, t);
      if mixed.None? then None else Some((mixed.value, message))
  }

  function WriteTokens(c: Crypto, hs: Handshake, tokens: seq<Token>, ephemeral: nat): Option<(Handshake, Data)>
    decreases |tokens|
  {
    if tokens == [] then Some((hs, []))
    else
      var first := WriteToken(c, hs, tokens[0], ephemeral);
      if first.None? then None
      else
        var rest := WriteTokens(c, first.value.0, tokens[1..], ephemeral);
        if rest.None? then None else Some((rest.value.0, first.value.1 + rest.value.1))
  }

  function ReadTokens(c: Crypto, hs: Handshake, tokens: seq<Token>, message: Data): Option<(Handshake, Data)>
    decreases |tokens|
  {
    if tokens == [] then Some((hs, message))
    else
      var first := ReadToken(c, hs, tokens[0], message);
      if first.None? then None else ReadTokens(c, first.value.0, tokens[1..], first.value.1)
  }

  function WriteMessage(c: Crypto, hs: Handshake, tokens: seq<Token>, payload: Data, ephemeral: nat): Option<(Handshake,
      Data)> {
    var r := WriteTokens(c, hs, tokens, ephemeral);
    if r.None? then None
    else
      var sealed := EncryptAndHash(c, r.value.0.symmetric, payload);
      if sealed.None? then None else Some((r.value.0.(symmetric := sealed.value.0), r.value.1 + sealed.value.1))
  }

  function ReadMessage(c: Crypto, hs: Handshake, tokens: seq<Token>, message: Data): Option<(Handshake, Data)> {
    var r := ReadTokens(c, hs, tokens, message);
    if r.None? then None
    else
      var plain := DecryptAndHash(c, r.value.0.symmetric, r.value.1);
      if plain.None? then None else Some((r.value.0.(symmetric := plain.value.0), plain.value.1))
  }

  // ----- two ends that match

  /** One end's remote key is the public half of the other end's own key, known on both ends or neither. */
  ghost predicate Paired(c: Crypto, own: Option<nat>, remote: Option<Data>) {
    (remote.Some? ==> own.Some?) && (own.Some? && remote.Some? ==> remote.value == c.publicKey(own.value))
  }

  ghost predicate InStep(c: Crypto, x: Handshake, y: Handshake) {
    && x.symmetric == y.symmetric && x.psk == y.psk && x.initiator != y.initiator
    && Paired(c, x.s, y.rs) && Paired(c, y.s, x.rs)
    && Paired(c, x.e, y.re) && Paired(c, y.e, x.re)
    && (x.e.Some? <==> y.re.Some?) && (y.e.Some? <==> x.re.Some?)
  }

  lemma DhAgrees(c: Crypto, a: nat, b: nat)
    requires Lawful(c)
    ensures c.dh(a, c.publicKey(b)) == c.dh(b, c.publicKey(a))
  {
  }

  /** A DH token for which both ends know their keys gives both the same secret. */
  lemma SecretsAgree(c: Crypto, x: Handshake, y: Handshake, t: Token)
    requires Lawful(c) && InStep(c, x, y) && KnownTo(x, t) && KnownTo(y, t)
    ensures Secret(c, x, t) == Secret(c, y, t)
  {
    if x.e.Some? && y.e.Some? { DhAgrees(c, x.e.value, y.e.value); }
    if x.e.Some? && y.s.Some? { DhAgrees(c, x.e.value, y.s.value); }
    if x.s.Some? && y.e.Some? { DhAgrees(c, x.s.value, y.e.value); }
    if x.s.Some? && y.s.Some? { DhAgrees(c, x.s.value, y.s.value); }
    hide Lawful;
  }

  /** Both keys that a DH token needs are there. */
  predicate KnownTo(hs: Handshake, t: Token) {
    match t
    case EE => hs.e.Some? && hs.re.Some?
    case ES => if hs.initiator then hs.e.Some? && hs.rs.Some? else hs.s.Some? && hs.re.Some?
    case SE => if hs.initiator then hs.s.Some? && hs.re.Some? else hs.e.Some? && hs.rs.Some?
    case SS => hs.s.Some? && hs.rs.Some?
    case PSK => hs.psk.Some?
    case S => hs.s.Some?
    case E => true
  }

  /** The DH tokens that use the writer's static key. */
  predicate UsesWriterStatic(t: Token, writerInitiates: bool) {
    t == SS || (t == ES && !writerInitiates) || (t == SE && writerInitiates)
  }

  /** A pattern sends a static key before it uses it, unless the other end knows it beforehand (section 7.3). */
  predicate StaticSent(known: bool, writerInitiates: bool, tokens: seq<Token>)
    decreases |tokens|
  {
    tokens != [] ==>
      && (UsesWriterStatic(tokens[0], writerInitiates) ==> known)
      && StaticSent(known || tokens[0] == S, writerInitiates, tokens[1..])
  }

  /** Whatever keys the writer has for a token, the reader has too. */
  lemma ReaderKnows(c: Crypto, x: Handshake, y: Handshake, t: Token)
    requires InStep(c, x, y) && KnownTo(x, t) && t != S && t != E
    requires UsesWriterStatic(t, x.initiator) ==> y.rs.Some?
    ensures KnownTo(y, t)
  {
  }

  lemma TokenMatches(c: Crypto, x: Handshake, y: Handshake, t: Token, ephemeral: nat, rest: Data)
    requires Lawful(c) && InStep(c, x, y) && (UsesWriterStatic(t, x.initiator) ==> y.rs.Some?)
    requires WriteToken(c, x, t, ephemeral).Some?
    ensures var (w, bytes) := WriteToken(c, x, t, ephemeral).value;
            var r := ReadToken(c, y, t, bytes + rest);
            && r.Some? && r.value.1 == rest && InStep(c, w, r.value.0) && w.initiator == x.initiator
            && (y.rs.Some? || t == S ==> r.value.0.rs.Some?)
  {
    var (w, bytes) := WriteToken(c, x, t, ephemeral).value;
    match t
    case E =>
      assert |c.publicKey(ephemeral)| == KEY_BYTES;
      assert (bytes + rest)[..KEY_BYTES] == bytes && (bytes + rest)[KEY_BYTES..] == rest;
    case S =>
      var key := c.publicKey(x.s.value);
      assert |key| == KEY_BYTES;
      DecryptUndoesEncrypt(c, x.symmetric.cipher, x.symmetric.handshakeHash, key);
      assert (bytes + rest)[..|bytes|] == bytes && (bytes + rest)[|bytes|..] == rest;
    case _ =>
      assert bytes + rest == rest;
      if t != PSK {
        ReaderKnows(c, x, y, t);
        SecretsAgree(c, x, y, t);
      }
  }

  lemma {:induction false} TokensMatch(c: Crypto, x: Handshake, y: Handshake, tokens: seq<Token>, ephemeral: nat,
                                       rest: Data)
    requires Lawful(c) && InStep(c, x, y) && StaticSent(y.rs.Some?, x.initiator, tokens)
    requires WriteTokens(c, x, tokens, ephemeral).Some?
    ensures var (w, bytes) := WriteTokens(c, x, tokens, ephemeral).value;
            var r := ReadTokens(c, y, tokens, bytes + rest);
            r.Some? && r.value.1 == rest && InStep(c, w, r.value.0)
    decreases |tokens|
  {
    hide Lawful, InStep, WriteToken, ReadToken, UsesWriterStatic;
    if tokens == [] {
      assert [] + rest == rest;
    } else {
      var (x1, b1) := WriteToken(c, x, tokens[0], ephemeral).value;
      var (x2, b2) := WriteTokens(c, x1, tokens[1..], ephemeral).value;
      TokenMatches(c, x, y, tokens[0], ephemeral, b2 + rest);
      assert (b1 + b2) + rest == b1 + (b2 + rest);
      var y1 := ReadToken(c, y, tokens[0], b1 + (b2 + rest)).value.0;
      KnownIsMonotone(y.rs.Some? || tokens[0] == S, y1.rs.Some?, x.initiator, tokens[1..]);
      TokensMatch(c, x1, y1, tokens[1..], ephemeral, rest);
    }
  }

  lemma {:induction false} KnownIsMonotone(known: bool, more: bool, writerInitiates: bool, tokens: seq<Token>)
    requires StaticSent(known, writerInitiates, tokens) && (known ==> more)
    ensures StaticSent(more, writerInitiates, tokens)
    decreases |tokens|
  {
    if tokens != [] { KnownIsMonotone(known || tokens[0] == S, more || tokens[0] == S, writerInitiates, tokens[1..]); }
  }

  /** What one end writes the other end reads: the payload arrives and both ends stay in step. */
  lemma MessageMatches(c: Crypto, x: Handshake, y: Handshake, tokens: seq<Token>, payload: Data, ephemeral: nat)
    requires Lawful(c) && InStep(c, x, y) && StaticSent(y.rs.Some?, x.initiator, tokens)
    requires WriteMessage(c, x, tokens, payload, ephemeral).Some?
    ensures var (w, message) := WriteMessage(c, x, tokens, payload, ephemeral).value;
            var r := ReadMessage(c, y, tokens, message);
            r.Some? && r.value.1 == payload && InStep(c, w, r.value.0)
  {
    var (x1, b1) := WriteTokens(c, x, tokens, ephemeral).value;
    var (s1, b2) := EncryptAndHash(c, x1.symmetric, payload).value;
    TokensMatch(c, x, y, tokens, ephemeral, b2);
    DecryptUndoesEncrypt(c, x1.symmetric.cipher, x1.symmetric.handshakeHash, payload);
  }
}
