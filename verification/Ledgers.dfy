// What a sidecar says, as values, and the pure rules both sides of a transfer apply to it.

module Ledgers {
  import opened Bytes
  import opened Bitmaps

  /** The chunk identity hash, taken as a free constructor: equal digests come only from equal
      path, index and payload. `Blank` is the all-zero digest, which no chunk hashes to. */
  datatype Digest = Sha(path: string, idx: nat, payload: Data) | Blank

  /** A recorded hash: "" (missing), "Z" (a zero chunk) or the hex of a digest. */
  datatype Mark = Missing | Hole | Hex(digest: Digest)

  datatype Ledger = Ledger(have: seq<bool>, marks: seq<Mark>) {
    predicate Shaped(n: nat) {
      |have| == n && |marks| == n
    }

    /** A bit is set exactly when a hash is recorded beside it. */
    ghost predicate Synced() {
      |have| == |marks| && forall i :: 0 <= i < |have| ==> (have[i] <==> marks[i] != Missing)
    }

    predicate Complete() {
      forall i :: 0 <= i < |have| ==> have[i]
    }

    function Put(i: nat, mark: Mark): (l: Ledger)
      requires i < |have| == |marks|
    {
      Ledger(have[i := true], marks[i := mark])
    }

    function Drop(i: nat): (l: Ledger)
      requires i < |have| == |marks|
    {
      Ledger(have[i := false], marks[i := Missing])
    }
  }

  function EmptyLedger(n: nat): (l: Ledger)
    ensures l.Shaped(n) && l.Synced()
    ensures forall i :: 0 <= i < n ==> !l.have[i] && l.marks[i] == Missing
  {
    Ledger(seq(n, _ => false), seq(n, _ => Missing))
  }

  /** What reading one chunk of a file gives: its bytes, or an error or short read. */
  datatype Read = Got(data: Data) | Unreadable

  /** `mark` is a faithful record of `data` as chunk i that a later re-hash will accept. */
  predicate Describes(mark: Mark, path: string, i: nat, data: Data) {
    match mark
    case Missing => false
    case Hole => AllZero(data)
    case Hex(d) => !AllZero(data) && d == Sha(path, i, data)
  }

  // ---------------------------------------------------------------------------------------
  // Re-hashing a part

  /** The outcome of re-hashing chunk i: its have-bit and its mark. */
  function RehashChunk(path: string, i: nat, have: bool, mark: Mark, read: Read, rebuilt: bool): (bool, Mark)
  {
    if !have then (have, mark)
    else match read
      case Unreadable => (false, Missing)
      case Got(data) =>
        if AllZero(data) then
          if rebuilt || mark != Hole then (false, Missing) else (true, mark)
        else if mark == Missing then (true, Hex(Sha(path, i, data)))
        else if mark != Hex(Sha(path, i, data)) then (false, Missing)
        else (true, mark)
  }

  function Rehash(path: string, l: Ledger, seen: seq<Read>): (r: Ledger)
    requires l.Shaped(|seen|)
    ensures r.Shaped(|seen|)
  {
    Ledger(seq(|seen|, i requires 0 <= i < |seen| => RehashChunk(path, i, l.have[i], l.marks[i], seen[i], false).0),
           seq(|seen|, i requires 0 <= i < |seen| => RehashChunk(path, i, l.have[i], l.marks[i], seen[i], false).1))
  }

  /** The ledger of a part whose sidecar was lost, or of an adopted final file. */
  function Rebuild(path: string, seen: seq<Read>): (r: Ledger)
    ensures r.Shaped(|seen|)
  {
    Ledger(seq(|seen|, i requires 0 <= i < |seen| => RehashChunk(path, i, true, Missing, seen[i], true).0),
           seq(|seen|, i requires 0 <= i < |seen| => RehashChunk(path, i, true, Missing, seen[i], true).1))
  }

  /** A trusted resume keeps a chunk exactly when it was recorded and the part's bytes still
      answer to the record; what it keeps, it keeps unchanged. */
  lemma RehashKeepsTheDescribed(path: string, l: Ledger, seen: seq<Read>, i: nat)
    requires l.Shaped(|seen|) && l.Synced() && i < |seen|
    ensures Rehash(path, l, seen).have[i] <==>
            l.have[i] && seen[i].Got? && Describes(l.marks[i], path, i, seen[i].data)
    ensures Rehash(path, l, seen).marks[i] ==
            if Rehash(path, l, seen).have[i] then l.marks[i] else Missing
  {
  }

  lemma RehashSynced(path: string, l: Ledger, seen: seq<Read>)
    requires l.Shaped(|seen|) && l.Synced()
    ensures Rehash(path, l, seen).Synced()
  {
    forall i | 0 <= i < |seen|
      ensures Rehash(path, l, seen).have[i] <==> Rehash(path, l, seen).marks[i] != Missing
    {
      RehashKeepsTheDescribed(path, l, seen, i);
    }
  }

  /** A rebuild claims exactly the readable non-zero chunks, each under the hash of its own bytes. */
  lemma RebuildClaims(path: string, seen: seq<Read>, i: nat)
    requires i < |seen|
    ensures Rebuild(path, seen).have[i] <==> seen[i].Got? && !AllZero(seen[i].data)
    ensures Rebuild(path, seen).marks[i] ==
            if Rebuild(path, seen).have[i] then Hex(Sha(path, i, seen[i].data)) else Missing
  {
  }

  /** Without agreement of bits and hashes a resume is not safe. It adopts bytes that answer to no record
      exactly where a bit is set beside an empty hash, and then whatever the part holds there. */
  lemma UnsyncedResumeAdoptsAnything(path: string, l: Ledger, seen: seq<Read>, i: nat)
    requires l.Shaped(|seen|) && i < |seen| && seen[i].Got?
    ensures var r := Rehash(path, l, seen);
            && (r.have[i] && !Describes(l.marks[i], path, i, seen[i].data) <==>
                l.have[i] && l.marks[i] == Missing && !AllZero(seen[i].data))
            && (r.have[i] && l.marks[i] == Missing ==> r.marks[i] == Hex(Sha(path, i, seen[i].data)))
  {
  }

  // ---------------------------------------------------------------------------------------
  // Claims and their verification

  /** The digest a mark contributes to the claim list. */
  function ClaimDigest(mark: Mark): Digest {
    if mark.Hex? then mark.digest else Blank
  }

  /** One digest per set bit, in bit order, over the first n chunks. */
  function ClaimList(l: Ledger, n: nat): (ds: seq<Digest>)
    requires n <= |l.have| == |l.marks|
    ensures |ds| == Count(l.have[..n])
  {
    if n == 0 then []
    else
      CountPrefix(l.have, n - 1);
      ClaimList(l, n - 1) + if l.have[n - 1] then [ClaimDigest(l.marks[n - 1])] else []
  }

  function ClaimHashes(l: Ledger): (ds: seq<Digest>)
    requires |l.have| == |l.marks|
    ensures |ds| == Count(l.have)
  {
    assert l.have[..|l.have|] == l.have;
    ClaimList(l, |l.have|)
  }

  lemma CountBelow(s: seq<bool>, i: nat)
    requires i < |s| && s[i]
    ensures Count(s[..i]) < Count(s)
  {
    CountPrefix(s, i);
    CountMonotone(s, i + 1, |s|);
    assert s[..|s|] == s;
  }

  /** The digest of claimed chunk i stands at the number of claims below i. */
  lemma {:induction false} ClaimRank(l: Ledger, n: nat, i: nat)
    requires i < n <= |l.have| == |l.marks| && l.have[i]
    ensures Count(l.have[..i]) < |ClaimList(l, n)|
    ensures ClaimList(l, n)[Count(l.have[..i])] == ClaimDigest(l.marks[i])
  {
    CountPrefix(l.have, n - 1);
    if i < n - 1 {
      ClaimRank(l, n - 1, i);
    }
  }

  /** The source answers claim digest d for chunk i. */
  predicate Confirms(path: string, i: nat, read: Read, d: Digest) {
    read.Got? && Sha(path, i, read.data) == d
  }

  /** The bits that survive the sender's check of the claim digests, for any bits and any digests. */
  function CheckedBits(path: string, bits: seq<bool>, hashes: seq<Digest>, seen: seq<Read>): (r: seq<bool>)
    requires |bits| == |seen|
    ensures |r| == |bits|
  {
    seq(|bits|, i requires 0 <= i < |bits| =>
      bits[i] && (Count(bits[..i]) < |hashes| ==> Confirms(path, i, seen[i], hashes[Count(bits[..i])])))
  }

  /** Digests beyond the claimed bits clear as many of the surviving bits, lowest first. */
  function DropLowestBits(bits: seq<bool>, surplus: int): (r: seq<bool>)
    ensures |r| == |bits|
  {
    seq(|bits|, i requires 0 <= i < |bits| => bits[i] && Count(bits[..i]) >= surplus)
  }

  function VerifiedBits(path: string, bits: seq<bool>, hashes: seq<Digest>, seen: seq<Read>): (r: seq<bool>)
    requires |bits| == |seen|
    ensures |r| == |bits|
  {
    DropLowestBits(CheckedBits(path, bits, hashes, seen), |hashes| - Count(bits))
  }

  /** For a claim list built from the ledger, a bit survives exactly when the source's own chunk has
      the digest recorded beside that bit. */
  lemma HonestClaimsVerifyByMark(path: string, l: Ledger, seen: seq<Read>, i: nat)
    requires l.Shaped(|seen|) && i < |seen|
    ensures VerifiedBits(path, l.have, ClaimHashes(l), seen)[i] <==>
            l.have[i] && seen[i].Got? && l.marks[i] == Hex(Sha(path, i, seen[i].data))
  {
    if l.have[i] {
      ClaimRank(l, |l.have|, i);
    }
  }

  /** Every surviving bit was checked against a digest, whatever the bits and the source are, exactly
      when there are at least as many digests as set bits. */
  lemma EverySurvivorWasChecked(path: string, bits: seq<bool>, hashes: seq<Digest>, seen: seq<Read>, i: nat)
    requires |bits| == |seen| && Count(bits) <= |hashes| && i < |bits|
    requires VerifiedBits(path, bits, hashes, seen)[i]
    ensures bits[i] && Count(bits[..i]) < |hashes| && Confirms(path, i, seen[i], hashes[Count(bits[..i])])
  {
    CountBelow(bits, i);
  }

  /** With fewer digests than bits the first bit of excess rank always survives, unread: no source
      content at all makes the sender clear it. */
  lemma ShortClaimListLeavesABitUnchecked(path: string, bits: seq<bool>, hashes: seq<Digest>) returns (i: nat)
    requires |hashes| < Count(bits)
    ensures i < |bits|
    ensures forall seen: seq<Read> | |seen| == |bits| :: VerifiedBits(path, bits, hashes, seen)[i]
  {
    i := BitOfRank(bits, |hashes|);
    forall seen: seq<Read> | |seen| == |bits|
      ensures VerifiedBits(path, bits, hashes, seen)[i]
    {
      assert CheckedBits(path, bits, hashes, seen)[i];
    }
  }

  lemma {:induction false} BitOfRank(bits: seq<bool>, k: nat) returns (i: nat)
    requires k < Count(bits)
    ensures i < |bits| && bits[i] && Count(bits[..i]) == k
    decreases |bits|
  {
    var n := |bits| - 1;
    if k < Count(bits[..n]) {
      i := BitOfRank(bits[..n], k);
      assert bits[..n][..i] == bits[..i];
    } else {
      i := n;
    }
  }

  // ---------------------------------------------------------------------------------------
  // The receiver's reaction

  /** Keep only the chunks in `keep`; every other bit and hash is dropped. */
  function Restrict(l: Ledger, keep: seq<bool>): (r: Ledger)
    requires l.Shaped(|keep|)
    ensures r.Shaped(|keep|)
    ensures forall i :: 0 <= i < |keep| ==> r.have[i] == (l.have[i] && keep[i])
    ensures forall i :: 0 <= i < |keep| ==>
              r.marks[i] == if l.have[i] && !keep[i] then Missing else l.marks[i]
    ensures l.Synced() ==> r.Synced()
  {
    Ledger(seq(|keep|, i requires 0 <= i < |keep| => l.have[i] && keep[i]),
           seq(|keep|, i requires 0 <= i < |keep| => if l.have[i] && !keep[i] then Missing else l.marks[i]))
  }
}
