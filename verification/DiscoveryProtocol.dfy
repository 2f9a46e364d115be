/**
 Peer discovery and resource broadcast among any number of nodes, as a transition system. A round registers
 with a bootstrap node, adopts it, fetches its peers and merges them; a broadcast posts to every known peer.
 Requests are served, answered and lost in any order, and any number of rounds and broadcasts interleave.
 */
module DiscoveryProtocol {
  import opened Basics

  type NodeId = string
  type Endpoint = string

  datatype Info = Info(id: NodeId, apiEndpoint: Endpoint, lastSeen: int)

  type Peers = map<NodeId, Info>

  /** The nodes with the endpoint each advertises, and the node that each endpoint reaches; no id or endpoint is empty. */
  datatype Net = Net(advertised: map<NodeId, Endpoint>, owner: map<Endpoint, NodeId>)

  ghost predicate NetOk(net: Net) {
    && (forall n :: n in net.advertised ==> net.advertised[n] in net.owner && net.owner[net.advertised[n]] == n)
    && (forall e :: e in net.owner ==> net.owner[e] in net.advertised)
    && "" !in net.advertised && "" !in net.owner
  }

  /** How far a round has come: what the bootstrap node or the node itself has done. */
  datatype Stage = Greeted | Registered | Adopted | Fetched(peers: seq<Info>)

  datatype Post = Post(peer: NodeId, endpoint: Endpoint, served: bool)

  /** `clean`: no peer has been skipped as stale, and no post has failed. */
  datatype Op =
    | Round(node: NodeId, url: Endpoint, bootstrap: NodeId, stage: Stage)
    | Cast(node: NodeId, visited: set<NodeId>, clean: bool, post: Option<Post>)

  /** The last two record what has happened; no node reads them. */
  datatype State = State(
    known: map<NodeId, Peers>,       // knownPeers of each node
    ops: map<nat, Op>,
    next: nat,
    met: set<(NodeId, NodeId)>,      // a node has completed a round against a bootstrap node
    own: set<NodeId>)                // nodes that have begun a round against themselves

  datatype Event =
    | Start(node: NodeId, url: Endpoint)
    | ServeRegister(t: nat, now: int)
    | Adopt(t: nat, now: int)
    | ServePeers(t: nat, peers: seq<Info>)
    | Merge(t: nat, now: int)
    | CastStart(node: NodeId)
    | Visit(t: nat, peer: NodeId, now: int)
    | ServePost(t: nat, now: int)
    | Ack(t: nat, now: int)
    | CastEnd(t: nat)
    | Fail(t: nat)

  /** Five minutes, in milliseconds. */
  const STALE_AFTER := 5 * 60 * 1000

  // ---------- what one node does to its map ----------

  /** The POST handler, and every other entry that is written. */
  function Registers(known: Peers, id: NodeId, endpoint: Endpoint, now: int): Peers {
    known[id := Info(id, endpoint, now)]
  }

  /** The loop that adds fetched peers, but neither the node itself nor a peer it knows. */
  function Merged(known: Peers, self: NodeId, peers: seq<Info>, now: int): Peers {
    if peers == [] then known
    else
      var k, p := Merged(known, self, peers[..|peers| - 1], now), peers[|peers| - 1];
      if p.id != self && p.id !in k then Registers(k, p.id, p.apiEndpoint, now) else k
  }

  ghost function Ids(peers: seq<Info>): set<NodeId> {
    set i | 0 <= i < |peers| :: peers[i].id
  }

  lemma {:induction false} MergedIs(known: Peers, self: NodeId, peers: seq<Info>, now: int)
    ensures var k := Merged(known, self, peers, now);
            && k.Keys == known.Keys + (Ids(peers) - {self})
            && (forall n :: n in known ==> k[n] == known[n])
            && (forall n :: n in k && n !in known ==> exists p :: p in peers && p.id == n && k[n] == Info(n, p.apiEndpoint, now))
  {
    if peers != [] {
      var front, p := peers[..|peers| - 1], peers[|peers| - 1];
      MergedIs(known, self, front, now);
      assert forall n :: n in Ids(peers) <==> n in Ids(front) || n == p.id by {
        assert forall i :: 0 <= i < |front| ==> front[i] == peers[i];
      }
      assert forall q :: q in front ==> q in peers;
      assert p in peers;
    }
  }

  /** The answer of `GET /api/peers`: every entry, in some order. */
  ghost predicate IsListing(peers: seq<Info>, known: Peers) {
    && (forall p :: p in peers ==> p.id in known && known[p.id] == p)
    && (forall n :: n in known ==> known[n] in peers)
  }

  // ---------- steps ----------

  predicate Shape(net: Net, s: State) {
    && s.known.Keys == net.advertised.Keys
    && (forall t :: t in s.ops ==> t < s.next && s.ops[t].node in s.known && OpShape(net, s.ops[t]))
  }

  predicate OpShape(net: Net, op: Op) {
    if op.Round? then op.url in net.owner && op.bootstrap == net.owner[op.url]
    else op.post.Some? ==> op.post.value.endpoint in net.owner
  }

  ghost predicate At(s: State, t: nat, stage: Stage) {
    t in s.ops && s.ops[t].Round? && s.ops[t].stage == stage
  }

  ghost predicate Posting(s: State, t: nat, served: bool) {
    t in s.ops && s.ops[t].Cast? && s.ops[t].post.Some? && s.ops[t].post.value.served == served
  }

  ghost predicate Enabled(net: Net, s: State, e: Event)
    requires NetOk(net) && Shape(net, s)
  {
    match e
    case Start(n, url) => n in s.known && url in net.owner
    case ServeRegister(t, _) => At(s, t, Greeted)
    case Adopt(t, _) => At(s, t, Registered)
    case ServePeers(t, peers) => At(s, t, Adopted) && IsListing(peers, s.known[s.ops[t].bootstrap])
    case Merge(t, _) => t in s.ops && s.ops[t].Round? && s.ops[t].stage.Fetched?
    case CastStart(n) => n in s.known
    case Visit(t, p, _) =>
      && t in s.ops && s.ops[t].Cast? && s.ops[t].post.None?
      && p in s.known[s.ops[t].node] && p !in s.ops[t].visited && s.known[s.ops[t].node][p].apiEndpoint in net.owner
    case ServePost(t, _) => Posting(s, t, false)
    case Ack(t, _) => Posting(s, t, true)
    case CastEnd(t) => t in s.ops && s.ops[t].Cast? && s.ops[t].post.None? && s.known[s.ops[t].node].Keys <= s.ops[t].visited
    case Fail(t) => t in s.ops && (s.ops[t].Round? || s.ops[t].post.Some?)
  }

  /** Node `n` writes the entry of `id`. */
  function Learns(s: State, n: NodeId, id: NodeId, endpoint: Endpoint, now: int): State
    requires n in s.known
  {
    s.(known := s.known[n := Registers(s.known[n], id, endpoint, now)])
  }

  function Becomes(s: State, t: nat, op: Op): State {
    s.(ops := s.ops[t := op])
  }

  function Next(net: Net, s: State, e: Event): State
    requires NetOk(net) && Shape(net, s) && Enabled(net, s, e)
  {
    match e
    case Start(n, url) =>
      s.(ops := s.ops[s.next := Round(n, url, net.owner[url], Greeted)], next := s.next + 1,
         own := if net.owner[url] == n then s.own + {n} else s.own)
    case ServeRegister(t, now) =>
      var op := s.ops[t];
      Becomes(Learns(s, op.bootstrap, op.node, net.advertised[op.node], now), t, op.(stage := Registered))
    case Adopt(t, now) =>
      var op := s.ops[t];
      Becomes(Learns(s, op.node, op.bootstrap, op.url, now), t, op.(stage := Adopted))
    case ServePeers(t, peers) => Becomes(s, t, s.ops[t].(stage := Fetched(peers)))
    case Merge(t, now) =>
      var op := s.ops[t];
      s.(known := s.known[op.node := Merged(s.known[op.node], op.node, op.stage.peers, now)],
         ops := s.ops - {t}, met := s.met + {(op.node, op.bootstrap)})
    case CastStart(n) => s.(ops := s.ops[s.next := Cast(n, {}, true, None)], next := s.next + 1)
    case Visit(t, p, now) =>
      var op, info := s.ops[t], s.known[s.ops[t].node][p];
      Becomes(s, t, if now - info.lastSeen > STALE_AFTER then op.(visited := op.visited + {p}, clean := false)
                    else op.(post := Some(Post(p, info.apiEndpoint, false))))
    case ServePost(t, now) =>
      var op := s.ops[t];
      Becomes(Learns(s, net.owner[op.post.value.endpoint], op.node, net.advertised[op.node], now),
              t, op.(post := Some(op.post.value.(served := true))))
    case Ack(t, now) =>
      var op := s.ops[t];
      var post := op.post.value;
      var info := Info(net.owner[post.endpoint], post.endpoint, now);
      Becomes(s, t, op.(visited := op.visited + {post.peer}, post := None))
        .(known := s.known[op.node := s.known[op.node][post.peer := info]])
    case CastEnd(t) => s.(ops := s.ops - {t})
    case Fail(t) =>
      var op := s.ops[t];
      if op.Round? then s.(ops := s.ops - {t})
      else Becomes(s, t, op.(visited := op.visited + {op.post.value.peer}, clean := false, post := None))
  }

  // ---------- the invariant ----------

  /** An entry is of a real node, under its own id, with an endpoint that reaches it. */
  ghost predicate EntryOk(net: Net, n: NodeId, info: Info) {
    n in net.advertised && info.id == n && info.apiEndpoint in net.owner && net.owner[info.apiEndpoint] == n
  }

  ghost predicate KnownOk(net: Net, s: State) {
    forall n, p :: n in s.known && p in s.known[n] ==> EntryOk(net, p, s.known[n][p])
  }

  ghost predicate Knows(s: State, n: NodeId, p: NodeId) {
    n in s.known && p in s.known[n]
  }

  ghost predicate SelfOk(s: State) {
    && (forall n :: Knows(s, n, n) ==> n in s.own)
    && (forall t :: t in s.ops && s.ops[t].Round? && s.ops[t].bootstrap == s.ops[t].node ==> s.ops[t].node in s.own)
  }

  ghost predicate OpOk(net: Net, s: State, op: Op) {
    match op
    case Round(n, url, b, stage) =>
      && (!stage.Greeted? ==> Knows(s, b, n))
      && (stage.Adopted? || stage.Fetched? ==> Knows(s, n, b))
      && (stage.Fetched? ==> forall p :: p in stage.peers ==> EntryOk(net, p.id, p))
    case Cast(n, visited, clean, post) =>
      && (forall p :: p in visited ==> Knows(s, n, p))
      && (clean ==> forall p :: p in visited ==> Knows(s, p, n))
      && (post.Some? ==> PostOk(net, s, n, post.value))
  }

  ghost predicate PostOk(net: Net, s: State, n: NodeId, post: Post) {
    && Knows(s, n, post.peer)
    && post.endpoint in net.owner && net.owner[post.endpoint] == post.peer
    && (post.served ==> Knows(s, post.peer, n))
  }

  ghost predicate HistoryOk(s: State) {
    forall x :: x in s.met ==> Knows(s, x.1, x.0) && Knows(s, x.0, x.1)
  }

  /** A node that has fetched from a bootstrap node: it has merged the peers, or still has to. */
  datatype Holder = Merger(node: NodeId, bootstrap: NodeId) | InFlight(t: nat)

  ghost predicate Holds(s: State, h: Holder) {
    match h
    case Merger(n, b) => (n, b) in s.met && n in s.known
    case InFlight(t) => t in s.ops && s.ops[t].Round? && s.ops[t].stage.Fetched?
  }

  ghost function NodeOf(s: State, h: Holder): NodeId
    requires Holds(s, h)
  {
    if h.Merger? then h.node else s.ops[h.t].node
  }

  ghost function BootstrapOf(s: State, h: Holder): NodeId
    requires Holds(s, h)
  {
    if h.Merger? then h.bootstrap else s.ops[h.t].bootstrap
  }

  /** The nodes a holder knows, or will know once it has merged. */
  ghost function Heard(s: State, h: Holder): set<NodeId>
    requires Holds(s, h)
  {
    if h.Merger? then s.known[h.node].Keys else Ids(s.ops[h.t].stage.peers)
  }

  /** Of two holders of the same bootstrap node, one has heard of the other: the one that fetched later. */
  ghost predicate Flagged(s: State, g: Holder, h: Holder)
    requires Holds(s, g) && Holds(s, h)
  {
    BootstrapOf(s, g) == BootstrapOf(s, h) && NodeOf(s, g) != NodeOf(s, h)
    ==> NodeOf(s, h) in Heard(s, g) || NodeOf(s, g) in Heard(s, h)
  }

  ghost predicate PairsOk(s: State) {
    forall g, h :: Holds(s, g) && Holds(s, h) ==> Flagged(s, g, h)
  }

  ghost predicate OpsOk(net: Net, s: State) {
    forall t :: t in s.ops ==> OpOk(net, s, s.ops[t])
  }

  ghost predicate Inv(net: Net, s: State) {
    Shape(net, s) && KnownOk(net, s) && SelfOk(s) && OpsOk(net, s) && HistoryOk(s) && PairsOk(s)
  }

  // ---------- every step keeps it ----------

  /** Nothing is ever forgotten. */
  ghost predicate Grows(s: State, s1: State) {
    && (forall n, p :: Knows(s, n, p) ==> Knows(s1, n, p))
    && s.met <= s1.met && s.own <= s1.own
  }

  lemma StepGrows(net: Net, s: State, e: Event)
    requires NetOk(net) && Shape(net, s) && Enabled(net, s, e)
    ensures Grows(s, Next(net, s, e))
  {
    if e.Merge? {
      MergedIs(s.known[s.ops[e.t].node], s.ops[e.t].node, s.ops[e.t].stage.peers, e.now);
    }
  }

  lemma StepShape(net: Net, s: State, e: Event)
    requires NetOk(net) && Shape(net, s) && Enabled(net, s, e)
    ensures Shape(net, Next(net, s, e))
  {
  }

  lemma GrownOp(net: Net, s: State, s1: State, op: Op)
    requires Grows(s, s1) && OpOk(net, s, op)
    ensures OpOk(net, s1, op)
  {
  }

  /** The operation that a step begins or moves on. */
  ghost predicate Moves(s: State, e: Event, t: nat) {
    match e
    case Start(_, _) => t == s.next
    case CastStart(_) => t == s.next
    case _ => t == e.t
  }

  lemma OthersStay(net: Net, s: State, e: Event, t: nat)
    requires NetOk(net) && Shape(net, s) && Enabled(net, s, e) && t in Next(net, s, e).ops && !Moves(s, e, t)
    ensures t in s.ops && Next(net, s, e).ops[t] == s.ops[t]
  {
  }

  lemma MovedOp(net: Net, s: State, e: Event, t: nat)
    requires NetOk(net) && Inv(net, s) && Enabled(net, s, e) && t in Next(net, s, e).ops && Moves(s, e, t)
    ensures OpOk(net, Next(net, s, e), Next(net, s, e).ops[t])
  {
    StepGrows(net, s, e);
    if t in s.ops {
      GrownOp(net, s, Next(net, s, e), s.ops[t]);
    }
  }

  lemma StepOps(net: Net, s: State, e: Event)
    requires NetOk(net) && Inv(net, s) && Enabled(net, s, e)
    ensures OpsOk(net, Next(net, s, e))
  {
    var s1 := Next(net, s, e);
    forall t | t in s1.ops ensures OpOk(net, s1, s1.ops[t]) {
      if Moves(s, e, t) {
        MovedOp(net, s, e, t);
      } else {
        OthersStay(net, s, e, t);
        StepGrows(net, s, e);
        GrownOp(net, s, s1, s.ops[t]);
      }
    }
  }

  lemma StepKnown(net: Net, s: State, e: Event)
    requires NetOk(net) && Shape(net, s) && KnownOk(net, s) && OpsOk(net, s) && Enabled(net, s, e)
    ensures KnownOk(net, Next(net, s, e))
  {
    if e.Merge? {
      MergedIs(s.known[s.ops[e.t].node], s.ops[e.t].node, s.ops[e.t].stage.peers, e.now);
      assert OpOk(net, s, s.ops[e.t]);
    } else if e.Ack? || e.ServePost? {
      assert OpOk(net, s, s.ops[e.t]);
    }
  }

  lemma StepSelf(net: Net, s: State, e: Event)
    requires NetOk(net) && Shape(net, s) && SelfOk(s) && OpsOk(net, s) && Enabled(net, s, e)
    ensures SelfOk(Next(net, s, e))
  {
    if e.Merge? {
      MergedIs(s.known[s.ops[e.t].node], s.ops[e.t].node, s.ops[e.t].stage.peers, e.now);
    } else if e.Ack? || e.ServePost? {
      assert OpOk(net, s, s.ops[e.t]);
    }
  }

  lemma StepHistory(net: Net, s: State, e: Event)
    requires NetOk(net) && Shape(net, s) && HistoryOk(s) && OpsOk(net, s) && Enabled(net, s, e)
    ensures HistoryOk(Next(net, s, e))
  {
    StepGrows(net, s, e);
    if e.Merge? {
      assert OpOk(net, s, s.ops[e.t]);
    }
  }

  // ---------- the flag argument ----------

  /** The holder that a holder after the step was before it; None for the one the step makes. */
  ghost function Before(net: Net, s: State, e: Event, h: Holder): Option<Holder>
    requires NetOk(net) && Shape(net, s) && Enabled(net, s, e)
  {
    if e.ServePeers? && h == InFlight(e.t) then None
    else if e.Merge? && !Holds(s, h) then Some(InFlight(e.t))
    else Some(h)
  }

  /** What it has heard is not lost, but for itself. */
  lemma HolderStays(net: Net, s: State, e: Event, h: Holder)
    requires NetOk(net) && Shape(net, s) && Enabled(net, s, e) && Holds(Next(net, s, e), h)
    requires Before(net, s, e, h).Some?
    ensures var s1, g := Next(net, s, e), Before(net, s, e, h).value;
            && Holds(s, g) && NodeOf(s1, h) == NodeOf(s, g) && BootstrapOf(s1, h) == BootstrapOf(s, g)
            && Heard(s, g) - {NodeOf(s, g)} <= Heard(s1, h)
  {
    var s1 := Next(net, s, e);
    StepGrows(net, s, e);
    if e.Merge? {
      MergedIs(s.known[s.ops[e.t].node], s.ops[e.t].node, s.ops[e.t].stage.peers, e.now);
    }
    if h.Merger? && Holds(s, h) {
      assert forall p :: Knows(s, h.node, p) ==> Knows(s1, h.node, p);
    } else if h.InFlight? {
      if !Moves(s, e, h.t) {
        OthersStay(net, s, e, h.t);
      }
    }
  }

  /** The node that fetches now has heard of every other holder: they have all registered before they fetched. */
  lemma NewHolderHears(net: Net, s: State, e: Event, h: Holder)
    requires NetOk(net) && Shape(net, s) && KnownOk(net, s) && OpsOk(net, s) && HistoryOk(s)
    requires Enabled(net, s, e) && e.ServePeers?
    requires Holds(s, h) && BootstrapOf(s, h) == s.ops[e.t].bootstrap
    ensures NodeOf(s, h) in Ids(e.peers)
  {
    var b, n := s.ops[e.t].bootstrap, NodeOf(s, h);
    if h.InFlight? {
      assert OpOk(net, s, s.ops[h.t]);
    } else {
      assert (h.node, h.bootstrap) in s.met;
    }
    assert Knows(s, b, n);
    assert s.known[b][n] in e.peers;
    assert EntryOk(net, n, s.known[b][n]);
  }

  lemma NewHolderFlagged(net: Net, s: State, e: Event, h: Holder)
    requires NetOk(net) && Inv(net, s) && Enabled(net, s, e) && e.ServePeers?
    requires Holds(Next(net, s, e), h) && h != InFlight(e.t)
    ensures Holds(Next(net, s, e), InFlight(e.t))
    ensures Flagged(Next(net, s, e), InFlight(e.t), h) && Flagged(Next(net, s, e), h, InFlight(e.t))
  {
    HolderStays(net, s, e, h);
    if BootstrapOf(s, h) == s.ops[e.t].bootstrap {
      NewHolderHears(net, s, e, h);
    }
  }

  lemma OldHoldersFlagged(net: Net, s: State, e: Event, g: Holder, h: Holder)
    requires NetOk(net) && Shape(net, s) && PairsOk(s) && Enabled(net, s, e)
    requires Holds(Next(net, s, e), g) && Holds(Next(net, s, e), h)
    requires Before(net, s, e, g).Some? && Before(net, s, e, h).Some?
    ensures Flagged(Next(net, s, e), g, h)
  {
    HolderStays(net, s, e, g);
    HolderStays(net, s, e, h);
    assert Flagged(s, Before(net, s, e, g).value, Before(net, s, e, h).value);
  }

  lemma StepPairs(net: Net, s: State, e: Event)
    requires NetOk(net) && Inv(net, s) && Enabled(net, s, e)
    ensures PairsOk(Next(net, s, e))
  {
    var s1 := Next(net, s, e);
    forall g, h | Holds(s1, g) && Holds(s1, h) ensures Flagged(s1, g, h) {
      if Before(net, s, e, g).Some? && Before(net, s, e, h).Some? {
        OldHoldersFlagged(net, s, e, g, h);
      } else if g != h {
        NewHolderFlagged(net, s, e, if g == InFlight(e.t) then h else g);
      }
    }
  }

  lemma StepInv(net: Net, s: State, e: Event)
    requires NetOk(net) && Inv(net, s) && Enabled(net, s, e)
    ensures Inv(net, Next(net, s, e))
  {
    StepShape(net, s, e);
    StepKnown(net, s, e);
    StepSelf(net, s, e);
    StepOps(net, s, e);
    StepHistory(net, s, e);
    StepPairs(net, s, e);
  }

  // ---------- whole runs ----------

  /** Nobody knows anybody yet. */
  function Initial(net: Net): State {
    State(map n | n in net.advertised :: map[], map[], 0, {}, {})
  }

  /** The state after `es`, in any order of interleaving; a step that is not enabled does not happen. */
  ghost function Reach(net: Net, s: State, es: seq<Event>): State
    requires NetOk(net)
  {
    if es == [] then s
    else
      var s1, e := Reach(net, s, es[..|es| - 1]), es[|es| - 1];
      if Shape(net, s1) && Enabled(net, s1, e) then Next(net, s1, e) else s1
  }

  lemma InitialInv(net: Net)
    requires NetOk(net)
    ensures Inv(net, Initial(net))
  {
  }

  lemma {:induction false} RunKeepsInv(net: Net, s: State, es: seq<Event>)
    requires NetOk(net) && Inv(net, s)
    ensures Inv(net, Reach(net, s, es)) && Grows(s, Reach(net, s, es))
  {
    if es != [] {
      var front, e := es[..|es| - 1], es[|es| - 1];
      RunKeepsInv(net, s, front);
      if Enabled(net, Reach(net, s, front), e) {
        StepInv(net, Reach(net, s, front), e);
        StepGrows(net, Reach(net, s, front), e);
        GrowsOn(s, Reach(net, s, front), Reach(net, s, es));
      }
    }
  }

  lemma GrowsOn(a: State, b: State, c: State)
    requires Grows(a, b) && Grows(b, c)
    ensures Grows(a, c)
  {
  }

  lemma {:induction false} ReachConcat(net: Net, s: State, a: seq<Event>, b: seq<Event>)
    requires NetOk(net)
    ensures Reach(net, s, a + b) == Reach(net, Reach(net, s, a), b)
  {
    if b == [] {
      assert a + b == a;
    } else {
      assert (a + b)[..|a + b| - 1] == a + b[..|b| - 1];
      ReachConcat(net, s, a, b[..|b| - 1]);
    }
  }

  /**
   What is known is true: every entry is of a real node, under its own id, with an endpoint that reaches it;
   and no node knows itself unless it has used itself as a bootstrap node.
   */
  lemma KnowledgeIsReal(net: Net, es: seq<Event>, n: NodeId, p: NodeId)
    requires NetOk(net) && Knows(Reach(net, Initial(net), es), n, p)
    ensures var s := Reach(net, Initial(net), es);
            && p in net.advertised && s.known[n][p].id == p
            && s.known[n][p].apiEndpoint in net.owner && net.owner[s.known[n][p].apiEndpoint] == p
            && (n == p ==> n in s.own)
  {
    InitialInv(net);
    RunKeepsInv(net, Initial(net), es);
    assert EntryOk(net, p, Reach(net, Initial(net), es).known[n][p]);
  }

  /** And a node that does so knows itself as soon as it has served its own request. */
  lemma OwnBootstrapKnowsItself(net: Net, s: State, t: nat, now: int)
    requires NetOk(net) && Shape(net, s) && Enabled(net, s, ServeRegister(t, now))
    ensures var op, s1 := s.ops[t], Next(net, s, ServeRegister(t, now));
            Knows(s1, op.node, op.node) <==> op.bootstrap == op.node || Knows(s, op.node, op.node)
  {
  }

  /** Whatever happens, known sets only grow. */
  lemma KnownOnlyGrows(net: Net, es: seq<Event>, more: seq<Event>, n: NodeId, p: NodeId)
    requires NetOk(net) && Knows(Reach(net, Initial(net), es), n, p)
    ensures Knows(Reach(net, Initial(net), es + more), n, p)
  {
    InitialInv(net);
    RunKeepsInv(net, Initial(net), es);
    RunKeepsInv(net, Reach(net, Initial(net), es), more);
    ReachConcat(net, Initial(net), es, more);
  }

  /** Register before fetch: of two nodes that have completed a round against the same bootstrap node, one knows the other. */
  lemma OneKnowsTheOther(net: Net, es: seq<Event>, n: NodeId, m: NodeId, b: NodeId)
    requires NetOk(net) && n != m
    requires var s := Reach(net, Initial(net), es); (n, b) in s.met && (m, b) in s.met
    ensures var s := Reach(net, Initial(net), es); Knows(s, n, m) || Knows(s, m, n)
  {
    InitialInv(net);
    RunKeepsInv(net, Initial(net), es);
    var s := Reach(net, Initial(net), es);
    assert Knows(s, n, b) && Knows(s, m, b);
    assert Holds(s, Merger(n, b)) && Holds(s, Merger(m, b));
    assert Flagged(s, Merger(n, b), Merger(m, b));
  }

  /** A clean broadcast ends in `es`: no peer was stale, and every post was answered. */
  ghost predicate Broadcasts(net: Net, s: State, es: seq<Event>, n: NodeId)
    requires NetOk(net)
  {
    exists i :: 0 <= i < |es| && EndsCast(net, Reach(net, s, es[..i]), es[i], n)
  }

  ghost predicate EndsCast(net: Net, s: State, e: Event, n: NodeId)
    requires NetOk(net)
  {
    Shape(net, s) && Enabled(net, s, e) && e.CastEnd? && s.ops[e.t].node == n && s.ops[e.t].clean
  }

  lemma CastEndTells(net: Net, s: State, e: Event, n: NodeId, p: NodeId)
    requires NetOk(net) && Inv(net, s) && EndsCast(net, s, e, n) && Knows(s, n, p)
    ensures Knows(s, p, n)
  {
    assert OpOk(net, s, s.ops[e.t]);
  }

  /** A clean broadcast makes everything its node knew before it mutual. */
  lemma BroadcastIsHeard(net: Net, s: State, es: seq<Event>, n: NodeId, p: NodeId)
    requires NetOk(net) && Inv(net, s) && Knows(s, n, p) && Broadcasts(net, s, es, n)
    ensures Knows(Reach(net, s, es), p, n)
  {
    var i :| 0 <= i < |es| && EndsCast(net, Reach(net, s, es[..i]), es[i], n);
    KnowsOn(net, s, es[..i], n, p);
    CastEndTells(net, Reach(net, s, es[..i]), es[i], n, p);
    KnowsOn(net, Reach(net, s, es[..i]), es[i..], p, n);
    ReachSplit(net, s, es, i);
  }

  lemma KnowsOn(net: Net, s: State, es: seq<Event>, n: NodeId, p: NodeId)
    requires NetOk(net) && Inv(net, s) && Knows(s, n, p)
    ensures Inv(net, Reach(net, s, es)) && Knows(Reach(net, s, es), n, p)
  {
    RunKeepsInv(net, s, es);
  }

  lemma ReachSplit(net: Net, s: State, es: seq<Event>, i: nat)
    requires NetOk(net) && i <= |es|
    ensures Reach(net, s, es) == Reach(net, Reach(net, s, es[..i]), es[i..])
  {
    ReachConcat(net, s, es[..i], es[i..]);
    assert es[..i] + es[i..] == es;
  }

  /** Two nodes that have completed a round against the same bootstrap node and then a clean broadcast know each other. */
  lemma BroadcastCompletesTheMesh(net: Net, es: seq<Event>, more: seq<Event>, n: NodeId, m: NodeId, b: NodeId)
    requires NetOk(net) && n != m
    requires var s := Reach(net, Initial(net), es);
             && (n, b) in s.met && (m, b) in s.met
             && Broadcasts(net, s, more, n) && Broadcasts(net, s, more, m)
    ensures var s := Reach(net, Initial(net), es + more); Knows(s, n, m) && Knows(s, m, n)
  {
    var s := Reach(net, Initial(net), es);
    InitialInv(net);
    RunKeepsInv(net, Initial(net), es);
    OneKnowsTheOther(net, es, n, m, b);
    ReachConcat(net, Initial(net), es, more);
    RunKeepsInv(net, s, more);
    if Knows(s, n, m) {
      BroadcastIsHeard(net, s, more, n, m);
    } else {
      BroadcastIsHeard(net, s, more, m, n);
    }
  }

  /**
   Full mesh: once every node but the bootstrap node has completed a round against it, and after that a clean
   broadcast, every node knows every other.
   */
  lemma FullMesh(net: Net, es: seq<Event>, more: seq<Event>, b: NodeId)
    requires NetOk(net)
    requires var s := Reach(net, Initial(net), es);
             forall n :: n in net.advertised && n != b ==> (n, b) in s.met && Broadcasts(net, s, more, n)
    ensures var s := Reach(net, Initial(net), es + more);
            forall n, m :: n in net.advertised && m in net.advertised && n != m ==> Knows(s, n, m)
  {
    var s := Reach(net, Initial(net), es + more);
    InitialInv(net);
    RunKeepsInv(net, Initial(net), es + more);
    ReachConcat(net, Initial(net), es, more);
    RunKeepsInv(net, Initial(net), es);
    RunKeepsInv(net, Reach(net, Initial(net), es), more);
    forall n, m | n in net.advertised && m in net.advertised && n != m ensures Knows(s, n, m) {
      if n == b {
        assert (m, b) in s.met;
      } else if m == b {
        assert (n, b) in s.met;
      } else {
        BroadcastCompletesTheMesh(net, es, more, n, m, b);
      }
    }
  }

  /** A round begun later has fetched, or merges, everyone its bootstrap node knew when it was begun. */
  ghost predicate Later(s: State, s1: State) {
    forall t :: t in s1.ops && t >= s.next && s1.ops[t].Round? && s1.ops[t].stage.Fetched? && s1.ops[t].bootstrap in s.known ==>
      s.known[s1.ops[t].bootstrap].Keys <= Ids(s1.ops[t].stage.peers)
  }

  lemma LaterStep(net: Net, s: State, s1: State, e: Event)
    requires NetOk(net) && Inv(net, s1) && Grows(s, s1) && Later(s, s1) && Enabled(net, s1, e)
    ensures Later(s, Next(net, s1, e))
  {
    var s2 := Next(net, s1, e);
    forall t | t in s2.ops && t >= s.next && s2.ops[t].Round? && s2.ops[t].stage.Fetched? && s2.ops[t].bootstrap in s.known
      ensures s.known[s2.ops[t].bootstrap].Keys <= Ids(s2.ops[t].stage.peers)
    {
      if e.ServePeers? && t == e.t {
        FetchesAll(net, s, s1, e);
      } else {
        assert t in s1.ops && s2.ops[t] == s1.ops[t];
      }
    }
  }

  lemma FetchesAll(net: Net, s: State, s1: State, e: Event)
    requires NetOk(net) && Inv(net, s1) && Grows(s, s1) && Enabled(net, s1, e) && e.ServePeers?
    requires s1.ops[e.t].bootstrap in s.known
    ensures s.known[s1.ops[e.t].bootstrap].Keys <= Ids(e.peers)
  {
    var b := s1.ops[e.t].bootstrap;
    forall n | n in s.known[b] ensures n in Ids(e.peers) {
      assert Knows(s, b, n);
      assert Knows(s1, b, n);
      assert EntryOk(net, n, s1.known[b][n]);
    }
  }

  lemma {:induction false} LaterRun(net: Net, s: State, es: seq<Event>)
    requires NetOk(net) && Inv(net, s)
    ensures Later(s, Reach(net, s, es))
  {
    if es != [] {
      var front, e := es[..|es| - 1], es[|es| - 1];
      RunKeepsInv(net, s, front);
      LaterRun(net, s, front);
      if Enabled(net, Reach(net, s, front), e) {
        LaterStep(net, s, Reach(net, s, front), e);
      }
    }
  }

  /** A round begun and completed after the others have registered leaves its node knowing all of them. */
  lemma LaterRoundKnowsAll(net: Net, es: seq<Event>, more: seq<Event>, t: nat, now: int, p: NodeId)
    requires NetOk(net)
    requires var s, s1 := Reach(net, Initial(net), es), Reach(net, Reach(net, Initial(net), es), more);
             && Shape(net, s1) && Enabled(net, s1, Merge(t, now)) && t >= s.next && Knows(s, s1.ops[t].bootstrap, p)
             && p != s1.ops[t].node
    ensures var s1 := Reach(net, Reach(net, Initial(net), es), more);
            Knows(Next(net, s1, Merge(t, now)), s1.ops[t].node, p)
  {
    var s := Reach(net, Initial(net), es);
    InitialInv(net);
    RunKeepsInv(net, Initial(net), es);
    LaterRun(net, s, more);
    var s1 := Reach(net, s, more);
    MergedIs(s1.known[s1.ops[t].node], s1.ops[t].node, s1.ops[t].stage.peers, now);
  }
}
