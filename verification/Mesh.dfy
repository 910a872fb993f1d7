// Versioned mesh configuration: signed envelopes merged by every node, and the publisher that numbers them.

module Mesh {
  import opened Bytes

  type Endpoint = string

  datatype Body = Body(version: int, origin: string, ts: string, endpoints: map<string, Endpoint>)

  /** `sigOk` says whether the signature verifies under the key it names. */
  datatype Envelope = Envelope(body: Body, pubKey: string, sigOk: bool)

  /** The names the mesh manages are kept as a set; the source keeps them sorted. */
  datatype Membership = Membership(key: string, version: int, origin: string, managed: set<string>)

  datatype Config = Config(endpoints: map<string, Endpoint>, mesh: Option<Membership>)

  datatype Outcome = Applied | Current | NoKey | WrongKey | Stale | BadSignature | TooOld | NotSaved

  /** What applying an envelope comes to, before anything is saved. */
  function Decide(cfg: Config, env: Envelope, recent: bool): Outcome {
    if cfg.mesh.None? || cfg.mesh.value.key == "" then NoKey
    else
      var m := cfg.mesh.value;
      if env.pubKey != m.key then WrongKey
      else if env.body.version == m.version && env.sigOk then Current
      else if env.body.version <= m.version then Stale
      else if !env.sigOk then BadSignature
      else if m.version == 0 && !recent then TooOld
      else Applied
  }

  /** The envelope wins name by name, names it no longer carries are dropped if the mesh managed them,
      and the node's own endpoints survive. */
  function Merge(cfg: Config, b: Body): Config
    requires cfg.mesh.Some?
  {
    var m := cfg.mesh.value;
    Config((cfg.endpoints - (m.managed - b.endpoints.Keys)) + b.endpoints,
           Some(Membership(m.key, b.version, b.origin, b.endpoints.Keys)))
  }

  function ApplyEnvelope(cfg: Config, env: Envelope, recent: bool, saves: bool): (Config, Outcome) {
    var o := Decide(cfg, env, recent);
    if o != Applied then (cfg, o)
    else if !saves then (cfg, NotSaved)
    else (Merge(cfg, env.body), Applied)
  }

  function Lookup(m: map<string, Endpoint>, name: string): (e: Option<Endpoint>)
    ensures e.Some? <==> name in m
    ensures e.Some? ==> e.value == m[name]
  {
    if name in m then Some(m[name]) else None
  }

  /** Name by name, after an applied envelope: the envelope's endpoint if it carries the name, none if the mesh
      managed the name and the envelope does not carry it, and else what was there. */
  lemma AppliedByName(cfg: Config, env: Envelope, recent: bool, saves: bool, name: string)
    requires ApplyEnvelope(cfg, env, recent, saves).1 == Applied
    ensures var after := ApplyEnvelope(cfg, env, recent, saves).0;
            && cfg.mesh.Some? && after.mesh.Some?
            && (name in env.body.endpoints ==>
                  name in after.endpoints && after.endpoints[name] == env.body.endpoints[name])
            && (name !in env.body.endpoints && name in cfg.mesh.value.managed ==> name !in after.endpoints)
            && (name !in env.body.endpoints && name !in cfg.mesh.value.managed ==>
                  (name in after.endpoints <==> name in cfg.endpoints)
                  && (name in cfg.endpoints ==> after.endpoints[name] == cfg.endpoints[name]))
            && (name in after.mesh.value.managed <==> name in env.body.endpoints)
            && after.mesh.value.version == env.body.version && after.mesh.value.origin == env.body.origin
            && after.mesh.value.key == cfg.mesh.value.key
  {
  }

  /** The envelope names the pinned key. */
  predicate Addressed(cfg: Config, env: Envelope) {
    cfg.mesh.Some? && cfg.mesh.value.key != "" && env.pubKey == cfg.mesh.value.key
  }

  /** An envelope is applied exactly when it is signed with the pinned key, newer than what the node has, fresh enough
      for a node that has none, and can be saved; anything else leaves the node as it was. A repeat of the version the
      node has is told from an older one, and a forged one from both. */
  lemma AppliedIff(cfg: Config, env: Envelope, recent: bool, saves: bool)
    ensures var (after, o) := ApplyEnvelope(cfg, env, recent, saves);
            var version := if cfg.mesh.Some? then cfg.mesh.value.version else 0;
            && (o == Applied <==>
                  Genuine(cfg, env) && env.body.version > version && (version != 0 || recent) && saves)
            && (o != Applied ==> after == cfg)
            && (o == Current <==> Genuine(cfg, env) && env.body.version == version)
            && (o == TooOld <==> Genuine(cfg, env) && env.body.version > version && version == 0 && !recent)
            && (o == NoKey <==> cfg.mesh.None? || cfg.mesh.value.key == "")
            && (o == WrongKey <==> cfg.mesh.Some? && cfg.mesh.value.key != "" && env.pubKey != cfg.mesh.value.key)
            && (o == BadSignature <==> Addressed(cfg, env) && !env.sigOk && env.body.version > version)
            && (o == Stale <==>
                  Addressed(cfg, env) && (env.body.version < version || (env.body.version == version && !env.sigOk)))
            && (o == NotSaved <==>
                  Genuine(cfg, env) && env.body.version > version && (version != 0 || recent) && !saves)
  {
  }

  // ---------------------------------------------------------------------------------------
  // One node, any deliveries

  datatype Delivery = Delivery(env: Envelope, recent: bool, saves: bool)

  function Receive(cfg: Config, ds: seq<Delivery>): Config
    decreases |ds|
  {
    if ds == [] then cfg else Receive(ApplyEnvelope(cfg, ds[0].env, ds[0].recent, ds[0].saves).0, ds[1..])
  }

  /** Signed with the pinned key. */
  predicate Genuine(cfg: Config, env: Envelope) {
    cfg.mesh.Some? && cfg.mesh.value.key != "" && env.pubKey == cfg.mesh.value.key && env.sigOk
  }

  function Newest(cfg: Config, v: int, ds: seq<Delivery>): int
    decreases |ds|
  {
    if ds == [] then v
    else
      var b := ds[0].env.body.version;
      Newest(cfg, if Genuine(cfg, ds[0].env) && ds[0].saves && b > v then b else v, ds[1..])
  }

  lemma {:induction false} NewestSame(a: Config, b: Config, v: int, ds: seq<Delivery>)
    requires a.mesh.Some? && b.mesh.Some? && a.mesh.value.key == b.mesh.value.key
    ensures Newest(a, v, ds) == Newest(b, v, ds)
    decreases |ds|
  {
    if ds != [] {
      var w := if Genuine(a, ds[0].env) && ds[0].saves && ds[0].env.body.version > v then ds[0].env.body.version else v;
      NewestSame(a, b, w, ds[1..]);
    }
  }

  /** However envelopes are reordered, lost or repeated, a node that starts from a positive version ends
      at the largest version among its own and the genuine envelopes it could save. */
  lemma {:induction false} ReachesNewest(cfg: Config, ds: seq<Delivery>)
    requires cfg.mesh.Some? && cfg.mesh.value.version > 0
    ensures var end := Receive(cfg, ds);
            && end.mesh.Some? && end.mesh.value.key == cfg.mesh.value.key
            && end.mesh.value.version == Newest(cfg, cfg.mesh.value.version, ds) >= cfg.mesh.value.version
    decreases |ds|
  {
    if ds != [] {
      var after := ApplyEnvelope(cfg, ds[0].env, ds[0].recent, ds[0].saves).0;
      ReachesNewest(after, ds[1..]);
      NewestSame(cfg, after, after.mesh.value.version, ds[1..]);
    }
  }

  predicate Offered(cfg: Config, ds: seq<Delivery>, v: int) {
    exists k :: 0 <= k < |ds| && Genuine(cfg, ds[k].env) && ds[k].saves && ds[k].env.body.version == v
  }

  /** Newest is the maximum, and so does not depend on the order of delivery. */
  lemma {:induction false} NewestIsMaximum(cfg: Config, v: int, ds: seq<Delivery>)
    ensures var n := Newest(cfg, v, ds);
            && (n == v || Offered(cfg, ds, n)) && n >= v
            && forall k :: 0 <= k < |ds| && Genuine(cfg, ds[k].env) && ds[k].saves ==> ds[k].env.body.version <= n
    decreases |ds|
  {
    if ds != [] {
      var b := ds[0].env.body.version;
      var w := if Genuine(cfg, ds[0].env) && ds[0].saves && b > v then b else v;
      NewestIsMaximum(cfg, w, ds[1..]);
      var n := Newest(cfg, v, ds);
      if n != w {
        var k :| 0 <= k < |ds[1..]| && Genuine(cfg, ds[1..][k].env) && ds[1..][k].saves
            && ds[1..][k].env.body.version == n;
        assert ds[k + 1] == ds[1..][k];
      } else if n != v {
        assert Genuine(cfg, ds[0].env) && ds[0].saves && ds[0].env.body.version == n;
      }
      forall k | 0 <= k < |ds| && Genuine(cfg, ds[k].env) && ds[k].saves
        ensures ds[k].env.body.version <= n
      {
        if k > 0 {
          assert ds[k] == ds[1..][k - 1];
        }
      }
    }
  }

  /** A name the mesh did not manage and no delivered envelope carries keeps its local value. */
  lemma {:induction false} LocalNamesSurvive(cfg: Config, ds: seq<Delivery>, name: string)
    requires cfg.mesh.Some? ==> name !in cfg.mesh.value.managed
    requires forall k :: 0 <= k < |ds| ==> name !in ds[k].env.body.endpoints
    ensures Lookup(Receive(cfg, ds).endpoints, name) == Lookup(cfg.endpoints, name)
    decreases |ds|
  {
    if ds != [] {
      assert name !in ds[0].env.body.endpoints;
      var after := ApplyEnvelope(cfg, ds[0].env, ds[0].recent, ds[0].saves).0;
      LocalNamesSurvive(after, ds[1..], name);
    }
  }

  /** The name is held only if the mesh manages it. */
  predicate HeldByMesh(cfg: Config, name: string) {
    name in cfg.endpoints ==> cfg.mesh.Some? && name in cfg.mesh.value.managed
  }

  lemma HeldStays(cfg: Config, env: Envelope, recent: bool, saves: bool, name: string)
    requires HeldByMesh(cfg, name)
    ensures HeldByMesh(ApplyEnvelope(cfg, env, recent, saves).0, name)
  {
  }

  /** A name the mesh has managed is gone once the newest applied envelope no longer carries it: whatever is
      delivered, it is in the endpoint list only while it is managed. */
  lemma {:induction false} RevokedNamesGo(cfg: Config, ds: seq<Delivery>, name: string)
    requires HeldByMesh(cfg, name)
    ensures HeldByMesh(Receive(cfg, ds), name)
    decreases |ds|
  {
    hide HeldByMesh, ApplyEnvelope;
    if ds != [] {
      HeldStays(cfg, ds[0].env, ds[0].recent, ds[0].saves, name);
      RevokedNamesGo(ApplyEnvelope(cfg, ds[0].env, ds[0].recent, ds[0].saves).0, ds[1..], name);
    }
  }

  // ---------------------------------------------------------------------------------------
  // The publisher

  datatype Stop = BeforeSave | AfterSave | Never

  /** One publish, with the config file locked: the version is recorded, then the envelope written. A
      crash may come at either point; `read` is the config it works from. */
  function Publish(disk: Config, read: Config, origin: string, ts: string, stop: Stop): (Config, Option<Body>)
    requires read.mesh.Some?
  {
    var m := read.mesh.value;
    var b := Body(m.version + 1, origin, ts, read.endpoints);
    if read.endpoints == map[] || stop == BeforeSave then (disk, None)
    else
      (Config(read.endpoints, Some(m.(version := b.version, origin := origin))),
       if stop == AfterSave then None else Some(b))
  }

  datatype Act =
    | Emit(origin: string, ts: string, stop: Stop)                        // a publish of what is on disk
    | EmitStale(read: Config, origin: string, ts: string, stop: Stop)     // of what was read before the lock
    | Edit(endpoints: map<string, Endpoint>)                              // the owner edits the list
    | Deliver(node: nat, d: Delivery)

  /** `out` is every envelope let out, oldest first; `known` is every name the mesh has managed on each node. */
  datatype World = World(owner: Config, nodes: seq<Config>, known: seq<set<string>>, out: seq<Body>)

  function ManagedBy(c: Config): set<string> {
    if c.mesh.Some? then c.mesh.value.managed else {}
  }

  /** Signatures are ideal: only bodies the owner let out verify under its key. */
  ghost predicate Possible(w: World, a: Act) {
    match a
    case Emit(_, _, _) => w.owner.mesh.Some?
    case EmitStale(read, _, _, _) =>
      w.owner.mesh.Some? && read.mesh.Some? && read.mesh.value.key == w.owner.mesh.value.key
    case Edit(_) => true
    case Deliver(node, d) =>
      && node < |w.nodes| == |w.known|
      && (w.owner.mesh.Some? && d.env.sigOk && d.env.pubKey == w.owner.mesh.value.key ==> d.env.body in w.out)
  }

  function Next(w: World, a: Act): World
    requires Possible(w, a)
  {
    match a
    case Emit(origin, ts, stop) =>
      var (owner, b) := Publish(w.owner, w.owner, origin, ts, stop);
      w.(owner := owner, out := if b.Some? then w.out + [b.value] else w.out)
    case EmitStale(read, origin, ts, stop) =>
      var (owner, b) := Publish(w.owner, read, origin, ts, stop);
      w.(owner := owner, out := if b.Some? then w.out + [b.value] else w.out)
    case Edit(endpoints) => w.(owner := w.owner.(endpoints := endpoints))
    case Deliver(node, d) =>
      var after := ApplyEnvelope(w.nodes[node], d.env, d.recent, d.saves).0;
      w.(nodes := w.nodes[node := after], known := w.known[node := w.known[node] + ManagedBy(after)])
  }

  ghost function Run(w: World, acts: seq<Act>): Option<World>
    decreases |acts|
  {
    if acts == [] then Some(w)
    else if Possible(w, acts[0]) then Run(Next(w, acts[0]), acts[1..])
    else None
  }

  /** The versions let out are distinct and ascending. */
  predicate Rising(out: seq<Body>) {
    forall i, j :: 0 <= i < j < |out| ==> out[i].version < out[j].version
  }

  /** And none is above the one recorded. */
  predicate Ascending(out: seq<Body>, recorded: int) {
    Rising(out) && forall i :: 0 <= i < |out| ==> out[i].version <= recorded
  }

  /** Nothing newer than v has been let out. */
  predicate UpToDate(out: seq<Body>, v: int) {
    out == [] || out[|out| - 1].version <= v
  }

  /** The act is a publish that lets its envelope out. */
  predicate Releases(w: World, a: Act) {
    match a
    case Emit(_, _, stop) => stop == Never && w.owner.endpoints != map[]
    case EmitStale(read, _, _, stop) => stop == Never && read.endpoints != map[]
    case _ => false
  }

  /** The version a publish works from. */
  function VersionRead(w: World, a: Act): int
    requires Possible(w, a) && (a.Emit? || a.EmitStale?)
  {
    if a.Emit? then w.owner.mesh.value.version else a.read.mesh.value.version
  }

  /** If the act lets an envelope out, nothing newer than what it works from is out. */
  ghost predicate ActCurrent(w: World, a: Act)
    requires Possible(w, a)
  {
    Releases(w, a) ==> UpToDate(w.out, VersionRead(w, a))
  }

  ghost predicate ReleasesCurrent(w: World, acts: seq<Act>)
    requires Run(w, acts).Some?
    decreases |acts|
  {
    acts != [] ==> ActCurrent(w, acts[0]) && ReleasesCurrent(Next(w, acts[0]), acts[1..])
  }

  /** The publishes of the run work from the config on disk, or from one with nothing newer let out since. The
      code reads the config again under the lock, and goes on from its earlier read when that fails. */
  ghost predicate Rereads(w: World, acts: seq<Act>)
    requires Run(w, acts).Some?
    decreases |acts|
  {
    acts != [] ==>
      (acts[0].EmitStale? ==> UpToDate(w.out, acts[0].read.mesh.value.version)) && Rereads(Next(w, acts[0]), acts[1..])
  }

  /** The node's managed names and their endpoints are those of the envelope its version names. */
  predicate Follows(c: Config, b: Body)
    requires c.mesh.Some?
  {
    && c.mesh.value.version == b.version && c.mesh.value.managed == b.endpoints.Keys
    && b.endpoints.Keys <= c.endpoints.Keys
    && forall name :: name in b.endpoints ==> c.endpoints[name] == b.endpoints[name]
  }

  predicate NodeSound(c: Config, start: Config, key: string, out: seq<Body>) {
    && c.mesh.Some? && c.mesh.value.key == key
    && (c == start || exists i :: 0 <= i < |out| && Follows(c, out[i]))
  }

  /** Every name the mesh has managed on the node is held only while it is managed. */
  ghost predicate KnownSound(c: Config, known: set<string>) {
    (c.mesh.Some? ==> c.mesh.value.managed <= known) && forall name :: name in known ==> HeldByMesh(c, name)
  }

  ghost predicate WorldSound(w: World, starts: seq<Config>, key: string) {
    && key != "" && w.owner.mesh.Some? && w.owner.mesh.value.key == key
    && |w.nodes| == |starts| == |w.known|
    && (forall k :: 0 <= k < |w.nodes| ==> KnownSound(w.nodes[k], w.known[k]))
    && forall k :: 0 <= k < |w.nodes| ==> NodeSound(w.nodes[k], starts[k], key, w.out)
  }

  lemma NodeKeepsFollowing(c: Config, start: Config, key: string, out: seq<Body>, more: seq<Body>)
    requires NodeSound(c, start, key, out) && out <= more
    ensures NodeSound(c, start, key, more)
  {
    if c != start {
      var i :| 0 <= i < |out| && Follows(c, out[i]);
      assert Follows(c, more[i]);
    }
  }

  lemma PublishStays(w: World, starts: seq<Config>, key: string, a: Act)
    requires WorldSound(w, starts, key) && Possible(w, a) && (a.Emit? || a.EmitStale?)
    ensures WorldSound(Next(w, a), starts, key)
  {
    hide NodeSound;
    var after := Next(w, a);
    forall k | 0 <= k < |after.nodes|
      ensures NodeSound(after.nodes[k], starts[k], key, after.out)
    {
      NodeKeepsFollowing(w.nodes[k], starts[k], key, w.out, after.out);
    }
  }

  lemma DeliverStays(w: World, starts: seq<Config>, key: string, node: nat, d: Delivery)
    requires WorldSound(w, starts, key) && Possible(w, Deliver(node, d))
    ensures WorldSound(Next(w, Deliver(node, d)), starts, key)
  {
    var c := w.nodes[node];
    assert NodeSound(c, starts[node], key, w.out);
    var (after, o) := ApplyEnvelope(c, d.env, d.recent, d.saves);
    if o == Applied {
      var i :| 0 <= i < |w.out| && w.out[i] == d.env.body;
      assert Follows(after, w.out[i]);
    }
    assert KnownSound(c, w.known[node]);
    forall name | name in w.known[node] + ManagedBy(after)
      ensures HeldByMesh(after, name)
    {
      if name in w.known[node] {
        HeldStays(c, d.env, d.recent, d.saves, name);
      }
    }
  }

  lemma {:induction false} RunsStaySound(w: World, starts: seq<Config>, key: string, acts: seq<Act>)
    requires WorldSound(w, starts, key) && Run(w, acts).Some?
    ensures WorldSound(Run(w, acts).value, starts, key)
    decreases |acts|
  {
    hide WorldSound;
    if acts != [] {
      match acts[0] {
        case Edit(endpoints) => EditStays(w, starts, key, endpoints);
        case Deliver(node, d) => DeliverStays(w, starts, key, node, d);
        case _ => PublishStays(w, starts, key, acts[0]);
      }
      RunsStaySound(Next(w, acts[0]), starts, key, acts[1..]);
    }
  }

  lemma EditStays(w: World, starts: seq<Config>, key: string, endpoints: map<string, Endpoint>)
    requires WorldSound(w, starts, key)
    ensures WorldSound(Next(w, Edit(endpoints)), starts, key)
  {
  }

  /** The start of a run: an owner with a key, and nodes with it pinned. */
  predicate Starts(w: World, key: string) {
    && key != "" && w.owner.mesh.Some? && w.owner.mesh.value.key == key && w.out == []
    && |w.known| == |w.nodes|
    && forall k :: 0 <= k < |w.nodes| ==>
         w.nodes[k].mesh.Some? && w.nodes[k].mesh.value.key == key && w.known[k] == w.nodes[k].mesh.value.managed
  }

  /** What a run delivers to one node, in order. */
  function DeliveredTo(acts: seq<Act>, node: nat): seq<Delivery> {
    if acts == [] then []
    else (if acts[0].Deliver? && acts[0].node == node then [acts[0].d] else []) + DeliveredTo(acts[1..], node)
  }

  /** Each node of a run is where its own deliveries bring it, so it ends at the newest version of those it could
      save, and the publishes and edits of the owner touch no node. */
  lemma {:induction false} NodesReceive(w: World, acts: seq<Act>, node: nat)
    requires Run(w, acts).Some? && node < |w.nodes|
    ensures var end := Run(w, acts).value;
            |end.nodes| == |w.nodes| && end.nodes[node] == Receive(w.nodes[node], DeliveredTo(acts, node))
    decreases |acts|
  {
    hide ApplyEnvelope, Publish;
    if acts != [] {
      var rest := DeliveredTo(acts[1..], node);
      assert [] + rest == rest;
      if acts[0].Deliver? && acts[0].node == node {
        assert ([acts[0].d] + rest)[1..] == rest;
      }
      NodesReceive(Next(w, acts[0]), acts[1..], node);
    }
  }

  /** A publish that lets its envelope out lets out what it read under the next version, and the publishing node takes
      that envelope, signed and sent back to it, as the one it has. */
  lemma OwnEnvelopeIsCurrent(w: World, a: Act, key: string)
    requires Possible(w, a) && Releases(w, a) && w.owner.mesh.value.key == key != ""
    ensures var u := Next(w, a);
            var b := u.out[|u.out| - 1];
            && |u.out| == |w.out| + 1 && u.out[..|w.out|] == w.out
            && b.version == VersionRead(w, a) + 1
            && b.endpoints == (if a.Emit? then w.owner.endpoints else a.read.endpoints)
            && b.origin == a.origin && b.ts == a.ts
            && ApplyEnvelope(u.owner, Envelope(b, key, true), true, true) == (u.owner, Current)
            && u.owner.endpoints == b.endpoints && u.owner.mesh.value.origin == b.origin
  {
  }

  // ---------------------------------------------------------------------------------------
  // Which runs keep the versions apart

  /** One act keeps the versions ascending exactly when it lets nothing out, or nothing newer than what it works
      from is out. */
  lemma ActKeepsRising(w: World, a: Act)
    requires Possible(w, a) && Rising(w.out)
    ensures Rising(Next(w, a).out) <==> ActCurrent(w, a)
  {
    if Releases(w, a) {
      var out, n := Next(w, a).out, |w.out|;
      assert out[..n] == w.out && out[n].version == VersionRead(w, a) + 1;
      if n > 0 {
        assert out[n - 1] == w.out[n - 1];
        assert forall i :: 0 <= i < n ==> out[i] == w.out[i] && w.out[i].version <= w.out[n - 1].version;
      }
    }
  }

  lemma OutGrows(w: World, a: Act)
    requires Possible(w, a)
    ensures Rising(Next(w, a).out) ==> Rising(w.out)
  {
    var out := Next(w, a).out;
    assert out[..|w.out|] == w.out;
    assert forall i :: 0 <= i < |w.out| ==> out[i] == w.out[i];
  }

  lemma {:induction false} BrokenForGood(w: World, acts: seq<Act>)
    requires Run(w, acts).Some? && !Rising(w.out)
    ensures !Rising(Run(w, acts).value.out)
    decreases |acts|
  {
    hide Rising, Possible;
    if acts != [] {
      OutGrows(w, acts[0]);
      BrokenForGood(Next(w, acts[0]), acts[1..]);
    }
  }

  /** Over every run of publishes, re-read or not and crashing anywhere, edits and deliveries: the versions let
      out are distinct and ascending exactly when each publish that lets an envelope out works from a version
      that nothing out is newer than. */
  lemma {:induction false} VersionsRiseIff(w: World, acts: seq<Act>)
    requires Rising(w.out) && Run(w, acts).Some?
    ensures Rising(Run(w, acts).value.out) <==> ReleasesCurrent(w, acts)
    decreases |acts|
  {
    hide Rising, ActCurrent, Possible;
    if acts != [] {
      ActKeepsRising(w, acts[0]);
      if ActCurrent(w, acts[0]) {
        VersionsRiseIff(Next(w, acts[0]), acts[1..]);
      } else {
        BrokenForGood(Next(w, acts[0]), acts[1..]);
      }
    }
  }

  lemma RereadKeepsAscending(w: World, a: Act)
    requires Possible(w, a) && w.owner.mesh.Some? && Ascending(w.out, w.owner.mesh.value.version)
    requires a.EmitStale? ==> UpToDate(w.out, a.read.mesh.value.version)
    ensures Next(w, a).owner.mesh.Some? && Ascending(Next(w, a).out, Next(w, a).owner.mesh.value.version)
    ensures ActCurrent(w, a)
  {
    var n := |w.out|;
    assert n > 0 ==> forall i :: 0 <= i < n ==> w.out[i].version <= w.out[n - 1].version;
  }

  lemma {:induction false} RereadsAreCurrent(w: World, acts: seq<Act>)
    requires Run(w, acts).Some? && Rereads(w, acts)
    requires w.owner.mesh.Some? && Ascending(w.out, w.owner.mesh.value.version)
    ensures ReleasesCurrent(w, acts)
    decreases |acts|
  {
    hide Ascending, UpToDate, Possible, ActCurrent;
    if acts != [] {
      RereadKeepsAscending(w, acts[0]);
      RereadsAreCurrent(Next(w, acts[0]), acts[1..]);
    }
  }

  /** Crashes in publish waste a version number at worst: while every publish works from the config on disk, or
      from one with nothing newer let out since, no two envelopes let out share a version. */
  lemma VersionsAreUnique(w: World, key: string, acts: seq<Act>, i: nat, j: nat)
    requires Starts(w, key) && Run(w, acts).Some? && Rereads(w, acts)
    requires i < j < |Run(w, acts).value.out|
    ensures ReleasesCurrent(w, acts)
    ensures Run(w, acts).value.out[i].version < Run(w, acts).value.out[j].version
  {
    RereadsAreCurrent(w, acts);
    VersionsRiseIff(w, acts);
  }

  lemma {:induction false} KnownGrows(w: World, acts: seq<Act>, node: nat)
    requires Run(w, acts).Some? && node < |w.known|
    ensures var end := Run(w, acts).value; |end.known| == |w.known| && w.known[node] <= end.known[node]
    decreases |acts|
  {
    hide ApplyEnvelope, Publish, ManagedBy;
    if acts != [] {
      KnownGrows(Next(w, acts[0]), acts[1..], node);
    }
  }

  /** Two nodes that have applied an envelope and are at the same version agree on the managed names
      and on the endpoint of each. */
  lemma NodesAgree(w: World, key: string, acts: seq<Act>, a: nat, b: nat)
    requires Starts(w, key) && Run(w, acts).Some? && ReleasesCurrent(w, acts) && a < |w.nodes| && b < |w.nodes|
    ensures var end := Run(w, acts).value;
            && |end.nodes| == |w.nodes| && end.nodes[a].mesh.Some? && end.nodes[b].mesh.Some?
            && (end.nodes[a] != w.nodes[a] && end.nodes[b] != w.nodes[b]
                && end.nodes[a].mesh.value.version == end.nodes[b].mesh.value.version ==>
                  end.nodes[a].mesh.value.managed == end.nodes[b].mesh.value.managed
                  && forall name :: name in end.nodes[a].mesh.value.managed ==>
                       Lookup(end.nodes[a].endpoints, name) == Lookup(end.nodes[b].endpoints, name))
    ensures var end := Run(w, acts).value;
            && |end.known| == |w.nodes|
            && forall name :: name in end.known[a] && name !in end.nodes[a].mesh.value.managed ==>
                 name !in end.nodes[a].endpoints
    ensures w.known[a] <= Run(w, acts).value.known[a]
  {
    RunsStaySound(w, w.nodes, key, acts);
    VersionsRiseIff(w, acts);
    KnownGrows(w, acts, a);
    var end := Run(w, acts).value;
    var x, y := end.nodes[a], end.nodes[b];
    assert NodeSound(x, w.nodes[a], key, end.out) && NodeSound(y, w.nodes[b], key, end.out);
    assert KnownSound(x, end.known[a]);
    if x != w.nodes[a] && y != w.nodes[b] && x.mesh.value.version == y.mesh.value.version {
      var i :| 0 <= i < |end.out| && Follows(x, end.out[i]);
      var j :| 0 <= j < |end.out| && Follows(y, end.out[j]);
    }
  }

  /** The re-read under the lock is what makes versions unique: when it fails, and the list was edited and
      published since the first read, the same version is let out again with other endpoints. */
  lemma StaleReadRepeatsVersion(w: World, key: string, mine: map<string, Endpoint>, theirs: map<string, Endpoint>,
                                origin: string, ts: string)
    requires Starts(w, key) && mine != map[] && theirs != map[] && mine != theirs
    ensures var read := Next(w, Edit(mine)).owner;
            var acts := [Edit(mine), Edit(theirs), Emit(origin, ts, Never), EmitStale(read, origin, ts, Never)];
            var end := Run(w, acts);
            && end.Some? && |end.value.out| == 2
            && end.value.out[0].version == end.value.out[1].version && end.value.out[0] != end.value.out[1]
  {
    var w1 := Next(w, Edit(mine));
    var emits := [Emit(origin, ts, Never), EmitStale(w1.owner, origin, ts, Never)];
    var w2 := Next(w1, Edit(theirs));
    var w3 := Next(w2, emits[0]);
    var w4 := Next(w3, emits[1]);
    assert w3.out == [Body(w.owner.mesh.value.version + 1, origin, ts, theirs)];
    assert w4.out == w3.out + [Body(w.owner.mesh.value.version + 1, origin, ts, mine)];
    assert Run(w3, emits[1..]) == Some(w4);
    assert Run(w2, emits) == Some(w4);
    assert ([Edit(theirs)] + emits)[1..] == emits;
    var acts := [Edit(mine), Edit(theirs)] + emits;
    assert acts[1..] == [Edit(theirs)] + emits;
    assert acts == [Edit(mine), Edit(theirs), Emit(origin, ts, Never), EmitStale(w1.owner, origin, ts, Never)];
  }

  /** A crash is enough: a publish from an earlier read that is stopped right after its save has set the
      recorded version back, and the next publish repeats a version although no stale envelope is out. */
  lemma CrashedStaleReadRepeatsVersion(w: World, key: string, origin: string, ts: string)
    requires Starts(w, key) && w.owner.endpoints != map[]
    ensures var go := Emit(origin, ts, Never);
            var end := Run(w, [go, go, EmitStale(w.owner, origin, ts, AfterSave), go]);
            && end.Some? && |end.value.out| == 3
            && end.value.out[1].version == end.value.out[2].version
  {
    var go, stale := Emit(origin, ts, Never), EmitStale(w.owner, origin, ts, AfterSave);
    var v := w.owner.mesh.value.version;
    var w1 := Next(w, go);
    var w2 := Next(w1, go);
    var w3 := Next(w2, stale);
    var w4 := Next(w3, go);
    assert w2.out == [w1.out[0], Body(v + 2, origin, ts, w.owner.endpoints)];
    assert w3.owner.mesh.value.version == v + 1 && w3.out == w2.out;
    assert w4.out == w2.out + [Body(v + 2, origin, ts, w.owner.endpoints)];
    var last := [go];
    assert last[1..] == [] && Run(w3, last) == Some(w4);
    assert [stale, go][1..] == last && Run(w2, [stale, go]) == Some(w4);
    assert [go, stale, go][1..] == [stale, go] && Run(w1, [go, stale, go]) == Some(w4);
    assert [go, go, stale, go][1..] == [go, stale, go];
  }

  // ---------------------------------------------------------------------------------------
  // The config file

  class ConfigFile {
    var endpoints: map<string, Endpoint>
    var mesh: Option<Membership>

    function View(): Config
      reads this
    {
      Config(endpoints, mesh)
    }

    constructor (cfg: Config)
      ensures View() == cfg
    {
      endpoints, mesh := cfg.endpoints, cfg.mesh;
    }

    /** The merge loops: managed names that are gone are deleted, then every carried name is set. */
    method Apply(env: Envelope, recent: bool, saves: bool) returns (o: Outcome)
      modifies this
      ensures (View(), o) == ApplyEnvelope(old(View()), env, recent, saves)
    {
      if mesh.None? || mesh.value.key == "" {
        return NoKey;
      }
      var m := mesh.value;
      if env.pubKey != m.key {
        return WrongKey;
      }
      if env.body.version == m.version && env.sigOk {
        return Current;
      }
      if env.body.version <= m.version {
        return Stale;
      }
      if !env.sigOk {
        return BadSignature;
      }
      if m.version == 0 && !recent {
        return TooOld;
      }
      var merged, left := endpoints, m.managed;
      while left != {}
        invariant left <= m.managed && merged == endpoints - ((m.managed - left) - env.body.endpoints.Keys)
        decreases left
      {
        var name :| name in left;
        if name !in env.body.endpoints {
          merged := merged - {name};
        }
        left := left - {name};
      }
      ghost var kept := merged;
      assert kept == endpoints - (m.managed - env.body.endpoints.Keys);
      var todo, managed := env.body.endpoints.Keys, {};
      while todo != {}
        invariant todo <= env.body.endpoints.Keys && managed == env.body.endpoints.Keys - todo
        invariant merged.Keys == kept.Keys + managed
        invariant forall name :: name in managed ==> merged[name] == env.body.endpoints[name]
        invariant forall name :: name in kept && name !in managed ==> merged[name] == kept[name]
        decreases todo
      {
        var name :| name in todo;
        merged := merged[name := env.body.endpoints[name]];
        managed := managed + {name};
        todo := todo - {name};
      }
      assert merged == kept + env.body.endpoints && managed == env.body.endpoints.Keys;
      if !saves {
        return NotSaved;
      }
      endpoints := merged;
      mesh := Some(m.(version := env.body.version, origin := env.body.origin, managed := managed));
      return Applied;
    }

    /** The part of publish under the lock, on a config it has just read again. */
    method PublishLocked(origin: string, ts: string, stop: Stop) returns (b: Option<Body>)
      requires mesh.Some?
      modifies this
      ensures (View(), b) == Publish(old(View()), old(View()), origin, ts, stop)
    {
      if endpoints == map[] || stop == BeforeSave {
        return None;
      }
      var env := Body(mesh.value.version + 1, origin, ts, endpoints);
      mesh := Some(mesh.value.(version := env.version, origin := origin));
      if stop == AfterSave {
        return None;
      }
      return Some(env);
    }
  }
}
