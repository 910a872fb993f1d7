// Swarm pieces: the seed's chunk catalog, the scan of local parts, and fetching from peers that may lie.

module Swarm {
  import opened Bytes
  import opened Grid
  import opened Modulus
  import opened Parts
  import opened Pickers

  /** SHA-256 as an injective function. */
  datatype Digest = Sha256(data: Data)

  datatype SwarmFile = SwarmFile(size: nat, sha: Digest, chunks: seq<Digest>)

  // ---------------------------------------------------------------------------------------
  // The catalog

  ghost function Catalog(g: Layout, file: Data): (c: seq<Digest>)
    requires Fits(g, file)
    ensures |c| == g.Count() && forall i :: 0 <= i < |c| ==> c[i] == Sha256(ChunkOf(g, file, i))
  {
    seq(g.Count(), (i: nat) requires i < g.Count() => Sha256(ChunkOf(g, file, i)))
  }

  const BUFFER: nat := 256 * 1024

  /** Reads one chunk through a bounded buffer into its running hash; `pos` is the file position. */
  method HashChunk(file: Data, pos: nat, len: nat) returns (ok: bool, chunk: Data, next: nat)
    requires pos <= |file|
    ensures ok <==> pos + len <= |file|
    ensures ok ==> chunk == file[pos..pos + len] && next == pos + len
  {
    var remaining := len;
    chunk, next := [], pos;
    while remaining > 0
      invariant next + remaining == pos + len && remaining >= 0 && pos <= next <= |file|
      invariant chunk == file[pos..next]
    {
      var r := if BUFFER < remaining then BUFFER else remaining;
      if |file| - next < r {
        return false, [], next;
      }
      chunk := chunk + file[next..next + r];
      next := next + r;
      remaining := remaining - r;
    }
    ok := true;
  }

  ghost predicate HashedAt(g: Layout, file: Data, pos: nat, chunks: seq<Digest>, j: nat)
    requires pos <= |file| && j < |chunks|
  {
    var off, n := g.Offset(j), g.Len(j);
    0 <= off && 0 <= n && off + n <= pos && chunks[j] == Sha256(file[off..off + n])
  }

  /** Streams a file once: the hash of its first `size` bytes and the catalog of their chunks; a file
      that has become shorter is an error. */
  method HashFileChunks(file: Data, size: nat) returns (ok: bool, whole: Digest, chunks: seq<Digest>)
    requires size <= MAX_COUNTED_SIZE
    ensures ok <==> size <= |file|
    ensures ok ==> whole == Sha256(file[..size]) && chunks == Catalog(CanonicalLayout(size), file[..size])
  {
    var g := CanonicalLayout(size);
    var seen, pos := [], 0;
    chunks := [];
    var i := 0;
    while i < g.Count()
      invariant 0 <= i <= g.Count() && |chunks| == i
      invariant pos == (if i == 0 then 0 else g.Offset(i - 1) + g.Len(i - 1)) <= size && pos <= |file|
      invariant seen == file[..pos]
      invariant forall j :: 0 <= j < i ==> HashedAt(g, file, pos, chunks, j)
    {
      Tiles(g, i);
      if i > 0 {
        Tiles(g, i - 1);
      }
      var done, chunk, next := HashChunk(file, pos, g.Len(i));
      if !done {
        return false, Sha256([]), [];
      }
      ghost var sofar := chunks;
      seen := seen + chunk;
      chunks := chunks + [Sha256(chunk)];
      forall j | 0 <= j < i + 1
        ensures HashedAt(g, file, next, chunks, j)
      {
        if j < i {
          assert HashedAt(g, file, pos, sofar, j);
        }
      }
      pos := next;
      i := i + 1;
    }
    ok := true;
    if size > 0 {
      CountBounds(g);
      Tiles(g, g.Count() - 1);
    }
    whole := Sha256(seen);
    forall j | 0 <= j < g.Count()
      ensures chunks[j] == Catalog(g, file[..size])[j]
    {
      assert HashedAt(g, file, pos, chunks, j);
      assert file[..size][g.Offset(j)..g.Offset(j) + g.Len(j)] == file[g.Offset(j)..g.Offset(j) + g.Len(j)];
    }
  }

  /** No catalog defers to the whole-file check; a chunk outside the catalog never verifies. */
  predicate ChunkOk(f: SwarmFile, ci: int, data: Data) {
    if f.chunks == [] then true
    else 0 <= ci < |f.chunks| && Sha256(data) == f.chunks[ci]
  }

  /** Against a catalog made from the seed, exactly the seed's bytes verify. */
  lemma OnlySeedVerifies(f: SwarmFile, seed: Data, ci: nat, data: Data)
    requires |seed| == f.size <= MAX_COUNTED_SIZE && f.chunks == Catalog(CanonicalLayout(f.size), seed)
    requires ci < CanonicalLayout(f.size).Count()
    ensures ChunkOk(f, ci, data) <==> data == ChunkOf(CanonicalLayout(f.size), seed, ci)
  {
  }

  /** A chunk of a part can be kept if it is wholly inside it and verifies, or without a catalog is not all
      zero. */
  predicate Kept(f: SwarmFile, g: Layout, part: Data, i: nat) {
    var off, n := g.Offset(i), g.Len(i);
    0 <= off && 0 <= n && off + n <= |part|
      && ChunkOk(f, i, part[off..off + n]) && (f.chunks == [] ==> !AllZero(part[off..off + n]))
  }

  /** A final file of the right size and hash needs nothing more. */
  predicate FinalOk(f: SwarmFile, final: Option<Data>) {
    final.Some? && |final.value| == f.size && Sha256(final.value) == f.sha
  }

  /** Chunk i need not be fetched: the final file verifies, or the chunk can be read and kept. */
  predicate Local(f: SwarmFile, final: Option<Data>, part: Option<Data>, readable: bool, i: nat) {
    FinalOk(f, final) || (readable && Kept(f, CanonicalLayout(f.size), BytesOf(part), i))
  }

  /** For a file made from the seed: a final file is good exactly when it is the seed's, a chunk of a part is kept
      exactly when the part holds the seed's bytes there, and without a catalog when the part holds anything there but
      zeros. */
  lemma KeptIsSeed(f: SwarmFile, seed: Data, final: Option<Data>, part: Data, i: nat)
    requires |seed| == f.size <= MAX_COUNTED_SIZE && f.sha == Sha256(seed) && i < CanonicalLayout(f.size).Count()
    ensures var g := CanonicalLayout(f.size);
            var (off, n) := (g.Offset(i), g.Len(i));
            && 0 <= off && 0 < n
            && (FinalOk(f, final) <==> final == Some(seed))
            && (f.chunks == Catalog(g, seed) ==>
                  (Kept(f, g, part, i) <==> off + n <= |part| && part[off..off + n] == ChunkOf(g, seed, i)))
            && (f.chunks == [] ==> (Kept(f, g, part, i) <==> off + n <= |part| && !AllZero(part[off..off + n])))
  {
    var g := CanonicalLayout(f.size);
    Tiles(g, i);
    if g.Offset(i) + g.Len(i) <= |part| && f.chunks == Catalog(g, seed) {
      OnlySeedVerifies(f, seed, i, part[g.Offset(i)..g.Offset(i) + g.Len(i)]);
    }
  }

  predicate Readable(unread: set<nat>, i: nat) {
    i !in unread
  }

  /** What of a file is here already: all of a final file that verifies, else what can be kept of its part, if
      there is one; `unread` are the chunks whose read fails. */
  method LocalChunks(f: SwarmFile, final: Option<Data>, part: Option<Data>, unread: set<nat>)
    returns (have: seq<bool>, verified: bool)
    requires f.size <= MAX_COUNTED_SIZE
    ensures verified <==> FinalOk(f, final)
    ensures |have| == CanonicalLayout(f.size).Count()
    ensures forall i :: 0 <= i < |have| ==> (have[i] <==> Local(f, final, part, Readable(unread, i), i))
  {
    var g := CanonicalLayout(f.size);
    if final.Some? && |final.value| == f.size {
      verified := Sha256(final.value) == f.sha;
      if verified {
        return seq(g.Count(), _ => true), true;
      }
    }
    verified := false;
    if part.None? {
      have := seq(g.Count(), _ => false);
      forall i: nat | i < g.Count()
        ensures !Kept(f, g, [], i)
      {
        Tiles(g, i);
      }
      return;
    }
    have := [];
    var i := 0;
    while i < g.Count()
      invariant 0 <= i <= g.Count() && |have| == i
      invariant forall j :: 0 <= j < i ==> (have[j] <==> j !in unread && Kept(f, g, part.value, j))
    {
      Tiles(g, i);
      var off, n := g.Offset(i), g.Len(i);
      var keep := false;
      if i !in unread && off + n <= |part.value| {
        var c := part.value[off..off + n];
        if |f.chunks| == 0 {
          var zero := ScanZero(c);
          keep := !zero;
        } else {
          keep := ChunkOk(f, i, c);
        }
      }
      have := have + [keep];
      i := i + 1;
    }
  }

  // ---------------------------------------------------------------------------------------
  // Fetching one chunk

  datatype Reply = Served(data: Data) | Miss

  datatype Fetch = Good(data: Data) | Failed | Cancelled

  predicate Refused(f: SwarmFile, ci: int, r: Reply) {
    r.Miss? || !ChunkOk(f, ci, r.data)
  }

  /** Peer k's answer in a round was of no use, or peer k is banned. */
  predicate Useless(f: SwarmFile, ci: int, peers: seq<string>, answers: seq<Reply>, banned: set<string>, k: nat)
    requires k < |peers| == |answers|
  {
    peers[k] in banned || Refused(f, ci, answers[k])
  }

  /** The answer is a chunk that fails its hash. */
  predicate Lies(f: SwarmFile, ci: int, r: Reply) {
    r.Served? && !ChunkOk(f, ci, r.data)
  }

  /** p served a chunk that fails its hash. */
  predicate Lied(f: SwarmFile, ci: int, peers: seq<string>, answers: seq<Reply>, p: string)
    requires |answers| == |peers|
  {
    exists k :: 0 <= k < |peers| && peers[k] == p && answers[k].Served? && !ChunkOk(f, ci, answers[k].data)
  }

  /** p was banned by another worker before some look. */
  predicate BannedElsewhere(others: seq<set<string>>, p: string) {
    exists k :: 0 <= k < |others| && p in others[k]
  }

  /** The j-th peer asked served this, and nobody had banned it by then. */
  predicate GivenBy(peers: seq<string>, start: nat, answers: seq<Reply>, banned: set<string>,
      others: seq<set<string>>, j: nat, data: Data)
    requires |answers| == |peers| == |others|
  {
    && j < |peers| && answers[Turn(start, j, |peers|)] == Served(data)
    && peers[Turn(start, j, |peers|)] !in banned
    && forall i :: 0 <= i <= j ==> peers[Turn(start, j, |peers|)] !in others[i]
  }

  /** One round over the peers from a rotating start; `answers` is what each would say, and `others` what
      other workers ban before each look at the shared bans. A peer that serves a wrong chunk is banned and
      not asked again. The context is looked at before each peer, and `looks` is how often it can be before
      it is found cancelled. */
  method AskPeers(f: SwarmFile, ci: int, peers: seq<string>, start: nat, answers: seq<Reply>, banned: set<string>,
      others: seq<set<string>>, looks: nat)
    returns (got: Fetch, nowBanned: set<string>)
    requires |answers| == |peers| == |others|
    ensures banned <= nowBanned
    ensures forall p :: p in nowBanned && p !in banned ==>
              Lied(f, ci, peers, answers, p) || BannedElsewhere(others, p)
    ensures got.Good? ==> ChunkOk(f, ci, got.data)
    ensures got.Good? ==> exists j :: GivenBy(peers, start, answers, banned, others, j, got.data)
    ensures got.Failed? ==> forall k :: 0 <= k < |others| ==> others[k] <= nowBanned
    ensures got.Failed? ==> looks >= |peers|
    ensures got.Failed? ==> forall k :: 0 <= k < |peers| && Lies(f, ci, answers[k]) ==> peers[k] in nowBanned
    ensures got.Failed? ==> forall k :: 0 <= k < |peers| ==> Useless(f, ci, peers, answers, nowBanned, k)
    ensures got.Cancelled? ==> looks < |peers|
  {
    nowBanned := banned;
    var k := 0;
    while k < |peers|
      invariant 0 <= k <= |peers| && k <= looks && banned <= nowBanned
      invariant forall j :: 0 <= j < k ==> others[j] <= nowBanned
      invariant forall p :: p in nowBanned && p !in banned ==>
                  Lied(f, ci, peers, answers, p) || BannedElsewhere(others, p)
      invariant forall j: nat :: j < k ==> Useless(f, ci, peers, answers, nowBanned, Turn(start, j, |peers|))
      invariant forall j: nat :: j < k && Lies(f, ci, answers[Turn(start, j, |peers|)]) ==>
                  peers[Turn(start, j, |peers|)] in nowBanned
    {
      if k == looks {
        return Cancelled, nowBanned;
      }
      var at := Turn(start, k, |peers|);
      nowBanned := nowBanned + others[k];
      if peers[at] !in nowBanned {
        match answers[at] {
          case Miss =>
          case Served(data) =>
            if ChunkOk(f, ci, data) {
              assert GivenBy(peers, start, answers, banned, others, k, data);
              return Good(data), nowBanned;
            }
            nowBanned := nowBanned + {peers[at]};
        }
      }
      k := k + 1;
    }
    got := Failed;
    forall j | 0 <= j < |peers|
      ensures Useless(f, ci, peers, answers, nowBanned, j)
      ensures Lies(f, ci, answers[j]) ==> peers[j] in nowBanned
    {
      Visits(start, j, |peers|);
    }
  }

  /** In some round the HTTP source, or a peer nobody had banned by then, served this. */
  predicate Sourced(peers: seq<string>, start: nat, answers: seq<seq<Reply>>, http: seq<Reply>, banned: set<string>,
      others: seq<seq<set<string>>>, data: Data)
    requires |answers| == 3 == |others|
    requires forall round :: 0 <= round < 3 ==> |answers[round]| == |peers| == |others[round]|
  {
    || (exists round: nat, j: nat :: round < 3 && j < |peers|
          && GivenBy(peers, start, answers[round], banned, others[round], j, data))
    || (exists round :: 0 <= round < |http| && http[round] == Served(data))
  }

  lemma GivenIsSourced(peers: seq<string>, start: nat, answers: seq<seq<Reply>>, http: seq<Reply>, banned: set<string>,
      before: set<string>, others: seq<seq<set<string>>>, round: nat, data: Data)
    requires |answers| == 3 == |others| && round < 3 && banned <= before
    requires forall r :: 0 <= r < 3 ==> |answers[r]| == |peers| == |others[r]|
    requires exists j :: GivenBy(peers, start, answers[round], before, others[round], j, data)
    ensures Sourced(peers, start, answers, http, banned, others, data)
  {
    var j :| GivenBy(peers, start, answers[round], before, others[round], j, data);
    assert GivenBy(peers, start, answers[round], banned, others[round], j, data);
  }

  lemma HttpIsSourced(peers: seq<string>, start: nat, answers: seq<seq<Reply>>, http: seq<Reply>, banned: set<string>,
      others: seq<seq<set<string>>>, round: nat)
    requires |answers| == 3 == |others| && round < |http| && http[round].Served?
    requires forall r :: 0 <= r < 3 ==> |answers[r]| == |peers| == |others[r]|
    ensures Sourced(peers, start, answers, http, banned, others, http[round].data)
  {
  }

  /** Three rounds: every peer, then the HTTP source if there is one, then a pause that a cancelled context
      cuts short. What comes back verifies; only liars are banned, here or by the other workers; the fetch
      fails only when nobody unbanned had the chunk in any round, and is cancelled only when the context was. */
  method FetchWithRetry(f: SwarmFile, ci: int, peers: seq<string>, start: nat, answers: seq<seq<Reply>>,
                        http: seq<Reply>, banned: set<string>, others: seq<seq<set<string>>>, looks: nat)
    returns (got: Fetch, nowBanned: set<string>)
    requires |answers| == 3 == |others| && (|http| == 0 || |http| == 3)
    requires forall round :: 0 <= round < 3 ==> |answers[round]| == |peers| == |others[round]|
    ensures banned <= nowBanned
    ensures forall p :: p in nowBanned && p !in banned ==>
              exists round :: 0 <= round < 3
                && (Lied(f, ci, peers, answers[round], p) || BannedElsewhere(others[round], p))
    ensures got.Good? ==> ChunkOk(f, ci, got.data)
    ensures got.Good? ==> Sourced(peers, start, answers, http, banned, others, got.data)
    ensures got.Failed? ==> forall round, k :: 0 <= round < 3 && 0 <= k < |peers| ==>
              Useless(f, ci, peers, answers[round], nowBanned, k)
    ensures got.Failed? ==> forall round, k :: 0 <= round < 3 && 0 <= k < |peers| ==>
              Lies(f, ci, answers[round][k]) ==> peers[k] in nowBanned
    ensures got.Failed? ==> forall round :: 0 <= round < |http| ==> Refused(f, ci, http[round])
    ensures got.Failed? ==> looks >= 3 * (|peers| + 1)
    ensures got.Cancelled? ==> looks < 3 * (|peers| + 1)
  {
    hide ChunkOk, GivenBy, Lied, BannedElsewhere, Turn, Sourced;
    nowBanned := banned;
    var round, left: nat := 0, looks;
    while round < 3
      invariant 0 <= round <= 3 && banned <= nowBanned && looks == left + round * (|peers| + 1)
      invariant forall p :: p in nowBanned && p !in banned ==>
                  exists r :: 0 <= r < 3 && (Lied(f, ci, peers, answers[r], p) || BannedElsewhere(others[r], p))
      invariant forall r, k :: 0 <= r < round && 0 <= k < |peers| ==> Useless(f, ci, peers, answers[r], nowBanned, k)
      invariant forall r, k :: 0 <= r < round && 0 <= k < |peers| ==>
                  Lies(f, ci, answers[r][k]) ==> peers[k] in nowBanned
      invariant forall r :: 0 <= r < round && r < |http| ==> Refused(f, ci, http[r])
    {
      ghost var before := nowBanned;
      got, nowBanned := AskPeers(f, ci, peers, start, answers[round], nowBanned, others[round], left);
      if !got.Failed? {
        if got.Good? {
          GivenIsSourced(peers, start, answers, http, banned, before, others, round, got.data);
        }
        return;
      }
      forall r, k | 0 <= r <= round && 0 <= k < |peers|
        ensures Useless(f, ci, peers, answers[r], nowBanned, k)
      {
        if r < round {
          assert Useless(f, ci, peers, answers[r], before, k);
        }
      }
      if round < |http| && !Refused(f, ci, http[round]) {
        HttpIsSourced(peers, start, answers, http, banned, others, round);
        return Good(http[round].data), nowBanned;
      }
      if left == |peers| {
        return Cancelled, nowBanned;
      }
      left := left - |peers| - 1;
      round := round + 1;
    }
    got := Failed;
  }
}
