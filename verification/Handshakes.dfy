// The 36-byte handshake, and the bytes both peers bind their keys to.

module Handshakes {
  import opened Bytes
  import opened Wire

  const MAGIC: Data := [70, 83, 89, 49]
  const MAJOR: byte := 1
  const PLAIN: byte := 0
  const KNOWN_FLAGS: byte := 7
  const SIZE: nat := 36

  datatype Handshake = Handshake(major: byte, minor: byte, cipher: byte, flags: byte, features: Data, nonce: Data)

  predicate Shaped(h: Handshake) {
    |h.features| == 8 && |h.nonce| == 16
  }

  /** The checksum, CRC-32C in the source, is any 32-bit function of the bytes. */
  type Crc = Data -> nat

  function Fields(h: Handshake): Data
    requires Shaped(h)
  {
    MAGIC + ([h.major, h.minor, h.cipher, h.flags] + (h.features + h.nonce))
  }

  function Marshal(crc: Crc, h: Handshake): (b: Data)
    requires Shaped(h)
    ensures |b| == SIZE
  {
    Fields(h) + LittleEndian(crc(Fields(h)), 4)
  }

  datatype Result = Ok(h: Handshake) | BadMagic | Corrupt | WrongMajor | WrongCipher | UnknownFlags | Short

  /** Flag bits 0 to 2 are known; any other refuses. */
  function Read(crc: Crc, b: Data): Result {
    if |b| < SIZE then Short
    else if b[..4] != MAGIC then BadMagic
    else if LittleValue(b[32..36]) != crc(b[..32]) then Corrupt
    else if b[4] != MAJOR then WrongMajor
    else if b[6] != PLAIN then WrongCipher
    else if b[7] > KNOWN_FLAGS then UnknownFlags
    else Ok(Handshake(b[4], b[5], b[6], b[7], b[8..16], b[16..32]))
  }

  /** An accepted handshake marshals to the very bytes it was read from. */
  lemma AcceptedIsItsBytes(crc: Crc, b: Data)
    requires |b| == SIZE && Read(crc, b).Ok?
    ensures Shaped(Read(crc, b).h) && Marshal(crc, Read(crc, b).h) == b
  {
    var h := Read(crc, b).h;
    assert Fields(h) == b[..32] by {
      assert b[..32] == b[..4] + ([b[4], b[5], b[6], b[7]] + (b[8..16] + b[16..32]));
    }
    LittleCanonical(b[32..36]);
    assert b == b[..32] + b[32..36];
  }

  /** A handshake is accepted by its reader exactly when it speaks this major version in plain framing
      with known flags. */
  lemma MarshalRead(crc: Crc, h: Handshake)
    requires Shaped(h) && crc(Fields(h)) < TWO32
    ensures Read(crc, Marshal(crc, h)) == Ok(h) <==> h.major == MAJOR && h.cipher == PLAIN && h.flags <= KNOWN_FLAGS
  {
    var b := Marshal(crc, h);
    Spans();
    LittleRoundTrip(crc(Fields(h)), 4);
    assert b[..32] == Fields(h) && b[32..36] == LittleEndian(crc(Fields(h)), 4);
    assert b[..4] == MAGIC && b[8..16] == h.features && b[16..32] == h.nonce;
  }

  // ---------------------------------------------------------------------------------------
  // The binding

  /** bytes.Compare(a, b) < 0 */
  predicate Less(a: Data, b: Data)
    decreases |a|
  {
    if b == [] then false
    else if a == [] then true
    else if a[0] != b[0] then a[0] < b[0]
    else Less(a[1..], b[1..])
  }

  lemma {:induction false} LessTotal(a: Data, b: Data)
    ensures !(Less(a, b) && Less(b, a))
    ensures a == b <==> !Less(a, b) && !Less(b, a)
    decreases |a|
  {
    if a != [] && b != [] && a[0] == b[0] {
      LessTotal(a[1..], b[1..]);
      assert a == [a[0]] + a[1..] && b == [b[0]] + b[1..];
    }
  }

  /** Both handshakes, the smaller first. */
  function Bind(a: Data, b: Data): Data {
    if Less(b, a) then b + a else a + b
  }

  lemma SameHalves(a: Data, b: Data, c: Data, d: Data)
    requires |a| == |c| && a + b == c + d
    ensures a == c && b == d
  {
    assert (a + b)[..|a|] == a && (c + d)[..|a|] == c;
    assert (a + b)[|a|..] == b && (c + d)[|a|..] == d;
  }

  lemma BindIsUnordered(a: Data, b: Data)
    ensures Bind(a, b) == Bind(b, a)
  {
    LessTotal(a, b);
  }

  lemma BindNamesBoth(a: Data, x: Data, b: Data, y: Data)
    requires |a| == |x| == |b| == |y| && Bind(a, x) == Bind(b, y)
    ensures (a == b && x == y) || (a == y && x == b)
  {
    var (p, q) := if Less(x, a) then (x, a) else (a, x);
    var (r, s) := if Less(y, b) then (y, b) else (b, y);
    SameHalves(p, q, r, s);
  }

  /** Two peers that sent distinct handshakes bind to the same bytes exactly when each saw what the other
      sent; `sawA` is what reached the peer that sent `sentA`. */
  lemma BindMeansUntouched(sentA: Data, sawA: Data, sentB: Data, sawB: Data)
    requires |sentA| == |sawA| == |sentB| == |sawB| == SIZE && sentA != sentB
    ensures Bind(sentA, sawA) == Bind(sentB, sawB) <==> sawA == sentB && sawB == sentA
  {
    if Bind(sentA, sawA) == Bind(sentB, sawB) {
      BindNamesBoth(sentA, sawA, sentB, sawB);
    } else if sawA == sentB && sawB == sentA {
      BindIsUnordered(sentA, sentB);
    }
  }

  /** What the peers really bind: their own handshake and the one they accepted, marshalled again. If no
      byte was touched they agree, and if any field either of them accepted differs they do not. */
  lemma PeersBindAlike(crc: Crc, a: Handshake, b: Handshake, sawA: Data, sawB: Data)
    requires Shaped(a) && Shaped(b) && Marshal(crc, a) != Marshal(crc, b)
    requires |sawA| == SIZE && Read(crc, sawA).Ok? && |sawB| == SIZE && Read(crc, sawB).Ok?
    ensures Shaped(Read(crc, sawA).h) && Shaped(Read(crc, sawB).h)
    ensures var x, y := Marshal(crc, a), Marshal(crc, b);
            Bind(x, Marshal(crc, Read(crc, sawA).h)) == Bind(y, Marshal(crc, Read(crc, sawB).h))
            <==> sawA == y && sawB == x
  {
    hide Marshal, Read, Bind;
    AcceptedIsItsBytes(crc, sawA);
    AcceptedIsItsBytes(crc, sawB);
    BindMeansUntouched(Marshal(crc, a), sawA, Marshal(crc, b), sawB);
  }

  // ---------------------------------------------------------------------------------------
  // What secureConn decides

  predicate WantsToken(flags: byte) {
    flags % 2 == 1
  }

  predicate WantsPass(flags: byte) {
    flags / 2 % 2 == 1
  }

  predicate SecureV2(flags: byte) {
    flags / 4 % 2 == 1
  }

  datatype Layer = Plaintext | Wrapped(bind: Data) | Refused

  function Secure(crc: Crc, mine: Handshake, theirs: Handshake): Layer
    requires Shaped(mine) && Shaped(theirs)
  {
    if WantsToken(mine.flags) != WantsToken(theirs.flags) then Refused
    else if WantsPass(mine.flags) != WantsPass(theirs.flags) then Refused
    else if !WantsToken(mine.flags) && !WantsPass(mine.flags) then Plaintext
    else if !SecureV2(mine.flags) || !SecureV2(theirs.flags) then Refused
    else Wrapped(Bind(Marshal(crc, mine), Marshal(crc, theirs)))
  }

  /** A peer that asks for a token or a passphrase never ends up in plaintext; and when both peers wrap
      and hold the same binding, each accepted exactly the handshake the other sent, so no flag or
      feature was changed on the way. */
  lemma NoSilentDowngrade(crc: Crc, a: Handshake, b: Handshake, sawA: Data, sawB: Data)
    requires Shaped(a) && Shaped(b) && Marshal(crc, a) != Marshal(crc, b)
    requires |sawA| == SIZE && Read(crc, sawA).Ok? && |sawB| == SIZE && Read(crc, sawB).Ok?
    ensures Shaped(Read(crc, sawA).h) && Shaped(Read(crc, sawB).h)
    ensures WantsToken(a.flags) || WantsPass(a.flags) ==> !Secure(crc, a, Read(crc, sawA).h).Plaintext?
    ensures var x, y := Secure(crc, a, Read(crc, sawA).h), Secure(crc, b, Read(crc, sawB).h);
            x.Wrapped? && y.Wrapped? && x.bind == y.bind ==> sawA == Marshal(crc, b) && sawB == Marshal(crc, a)
  {
    AcceptedIsItsBytes(crc, sawA);
    AcceptedIsItsBytes(crc, sawB);
    hide Marshal, Read, Bind;
    PeersBindAlike(crc, a, b, sawA, sawB);
  }

  /** Flag bits 0, 1 and 2 of a byte: token, pass and secure v2. */
  predicate FlagBits(flags: byte, token: nat, pass: nat, v2: nat) {
    token <= 1 && pass <= 1 && v2 <= 1 && flags as nat % 8 == token + 2 * pass + 4 * v2
  }

  /** What a connection becomes, from the flag bits alone: plaintext exactly when neither peer asks for a layer,
      wrapped exactly when both ask for the same ones, at least one, and both carry v2, and refused otherwise. */
  lemma SecureByFlags(crc: Crc, mine: Handshake, theirs: Handshake, t: nat, p: nat, v: nat, t2: nat, p2: nat, v2: nat)
    requires Shaped(mine) && Shaped(theirs)
    requires FlagBits(mine.flags, t, p, v) && FlagBits(theirs.flags, t2, p2, v2)
    ensures var layer := Secure(crc, mine, theirs);
            && (layer.Plaintext? <==> t == 0 && p == 0 && t2 == 0 && p2 == 0)
            && (layer.Wrapped? <==> t == t2 && p == p2 && t + p > 0 && v == 1 && v2 == 1)
            && (layer.Refused? <==> t != t2 || p != p2 || (t + p > 0 && (v == 0 || v2 == 0)))
            && (layer.Wrapped? ==> layer.bind == Bind(Marshal(crc, mine), Marshal(crc, theirs)))
  {
    FlagsMean(mine.flags, t, p, v);
    FlagsMean(theirs.flags, t2, p2, v2);
    hide WantsToken, WantsPass, SecureV2, FlagBits;
  }

  lemma FlagsMean(flags: byte, token: nat, pass: nat, v2: nat)
    requires FlagBits(flags, token, pass, v2)
    ensures token <= 1 && pass <= 1 && v2 <= 1
    ensures (WantsToken(flags) <==> token == 1) && (WantsPass(flags) <==> pass == 1) && (SecureV2(flags) <==> v2 == 1)
  {
    var rest := flags as nat / 8;
    assert flags as nat == 8 * rest + token + 2 * pass + 4 * v2;
  }

  /** Two honest peers that ask for the same layers and carry v2, with nothing touched on the way, both end wrapped
      and hold the same binding. */
  lemma HonestPeersWrap(crc: Crc, a: Handshake, b: Handshake, t: nat, p: nat)
    requires Shaped(a) && Shaped(b) && crc(Fields(a)) < TWO32 && crc(Fields(b)) < TWO32
    requires a.major == MAJOR == b.major && a.cipher == PLAIN == b.cipher && a.flags <= KNOWN_FLAGS
        && b.flags <= KNOWN_FLAGS
    requires FlagBits(a.flags, t, p, 1) && FlagBits(b.flags, t, p, 1) && t + p > 0
    ensures Read(crc, Marshal(crc, b)) == Ok(b) && Read(crc, Marshal(crc, a)) == Ok(a)
    ensures var x, y := Secure(crc, a, b), Secure(crc, b, a); x.Wrapped? && y.Wrapped? && x.bind == y.bind
  {
    MarshalRead(crc, a);
    MarshalRead(crc, b);
    SecureByFlags(crc, a, b, t, p, 1, t, p, 1);
    SecureByFlags(crc, b, a, t, p, 1, t, p, 1);
    BindIsUnordered(Marshal(crc, a), Marshal(crc, b));
  }
}
