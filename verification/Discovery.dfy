/** What one node does to its map of known peers, in place, in each step of the discovery protocol. */
module Discovery {
  import opened Basics
  import opened JsMap
  import opened DiscoveryProtocol

  /** The values of a map, in the order of its entries. */
  function Listing(slots: Slots<NodeId>, known: Peers): (peers: seq<Info>)
    requires forall n :: n in Entries(slots) ==> n in known
    ensures |peers| == |Entries(slots)|
    ensures forall i :: 0 <= i < |peers| ==> peers[i] == known[Entries(slots)[i]]
  {
    seq(|Entries(slots)|, i requires 0 <= i < |Entries(slots)| => known[Entries(slots)[i]])
  }

  lemma EntriesAre(slots: Slots<NodeId>, keys: set<NodeId>)
    requires Lists(slots, keys)
    ensures Distinct(Entries(slots)) && forall n :: n in Entries(slots) <==> n in keys
  {
    EntriesOf(slots, keys, |slots|);
    assert slots[..|slots|] == slots;
  }

  /** When every entry stands under its own id, the values are a listing of the map, each peer once. */
  lemma ListingIsComplete(slots: Slots<NodeId>, known: Peers)
    requires Lists(slots, known.Keys) && forall n :: n in known ==> known[n].id == n
    ensures (forall n :: n in Entries(slots) ==> n in known) && IsListing(Listing(slots, known), known)
    ensures Distinct(Listing(slots, known))
  {
    EntriesOf(slots, known.Keys, |slots|);
    assert slots[..|slots|] == slots;
    var peers := Listing(slots, known);
    forall n | n in known ensures known[n] in peers {
      assert n in Entries(slots);
      var i :| 0 <= i < |Entries(slots)| && Entries(slots)[i] == n;
      assert peers[i] == known[n];
    }
    forall i, j | 0 <= i < j < |peers| ensures peers[i] != peers[j] {
      assert peers[i].id == Entries(slots)[i] && peers[j].id == Entries(slots)[j];
    }
  }

  /** No slot is empty: peers are never deleted. */
  ghost predicate Full(slots: Slots<NodeId>) {
    forall i :: 0 <= i < |slots| ==> slots[i].Some?
  }

  // ---------- one turn of the broadcast loop ----------

  /** Where the loop posts to, or nothing for a peer that has not been seen for five minutes. */
  function TargetOf(known: Peers, peer: NodeId, now: int): Option<Endpoint>
    requires peer in known
  {
    if now - known[peer].lastSeen > STALE_AFTER then None else Some(known[peer].apiEndpoint)
  }

  /**
   What comes from outside while the loop runs: the registrations served while each turn waits for its answer, with
   the time of each, whether the answer comes, and the clock.
   */
  datatype Outside = Outside(arrivals: seq<seq<Info>>, answered: nat -> bool, clock: nat -> int)

  function ArrivalsAt(o: Outside, i: nat): seq<Info> {
    if i < |o.arrivals| then o.arrivals[i] else []
  }

  /** How many registrations come in turn `i` and later. */
  function Coming(o: Outside, i: nat): nat
    decreases |o.arrivals| - i
  {
    if i < |o.arrivals| then |o.arrivals[i]| + Coming(o, i + 1) else 0
  }

  function Admitted(known: Peers, arrivals: seq<Info>): Peers {
    if arrivals == [] then known
    else
      var a := arrivals[|arrivals| - 1];
      Registers(Admitted(known, arrivals[..|arrivals| - 1]), a.id, a.apiEndpoint, a.lastSeen)
  }

  /** The map after turn `i`: if it posts, registrations come in while it waits, and an answer renews the entry of the peer. */
  function Turned(known: Peers, peer: NodeId, o: Outside, i: nat): Peers
    requires peer in known
  {
    var k, target := Admitted(known, ArrivalsAt(o, i)), TargetOf(known, peer, o.clock(i));
    if target.None? then known
    else if o.answered(i) then Registers(k, peer, target.value, o.clock(i))
    else k
  }

  /** After registrations, the entry of a node is that of its last one, or as it was if there is none. */
  lemma {:induction false} AdmittedIs(known: Peers, arrivals: seq<Info>, n: NodeId)
    ensures (forall i :: 0 <= i < |arrivals| ==> arrivals[i].id != n) ==>
              (n in Admitted(known, arrivals) <==> n in known) && (n in known ==> Admitted(known, arrivals)[n] == known[n])
    ensures forall j :: IsLast(arrivals, j, n) ==>
              && n in Admitted(known, arrivals)
              && Admitted(known, arrivals)[n] == Info(n, arrivals[j].apiEndpoint, arrivals[j].lastSeen)
  {
    if arrivals != [] {
      var m := |arrivals| - 1;
      AdmittedIs(known, arrivals[..m], n);
      forall j | IsLast(arrivals, j, n)
        ensures n in Admitted(known, arrivals)
        ensures Admitted(known, arrivals)[n] == Info(n, arrivals[j].apiEndpoint, arrivals[j].lastSeen)
      {
        if j < m {
          assert IsLast(arrivals[..m], j, n);
        }
      }
    }
  }

  /** The last registration of `n` is number `j`. */
  ghost predicate IsLast(arrivals: seq<Info>, j: int, n: NodeId) {
    0 <= j < |arrivals| && arrivals[j].id == n && forall i :: j < i < |arrivals| ==> arrivals[i].id != n
  }

  /**
   A turn, spelled out: a peer last seen more than five minutes ago is skipped and nothing changes; to any other the node
   posts, an answer makes its entry as new with the endpoint it had, and the rest is the registrations in between.
   */
  lemma TurnedIs(known: Peers, peer: NodeId, o: Outside, i: nat)
    requires peer in known
    ensures var after, stale := Turned(known, peer, o, i), o.clock(i) - known[peer].lastSeen > 300_000;
            && TargetOf(known, peer, o.clock(i)) == (if stale then None else Some(known[peer].apiEndpoint))
            && (stale ==> after == known)
            && (!stale && o.answered(i) ==> peer in after && after[peer] == Info(peer, known[peer].apiEndpoint, o.clock(i)))
            && (!stale ==> forall n :: n != peer || !o.answered(i) ==>
                  (n in after <==> n in Admitted(known, ArrivalsAt(o, i)))
                  && (n in after ==> after[n] == Admitted(known, ArrivalsAt(o, i))[n]))
  {
  }

  /** The map after the first `n` turns, which visit the peers in this order. */
  function AfterTurns(known: Peers, order: seq<NodeId>, o: Outside, n: nat): Peers
    requires n <= |order|
  {
    if n == 0 then known
    else
      var k := AfterTurns(known, order, o, n - 1);
      if order[n - 1] in k then Turned(k, order[n - 1], o, n - 1) else k
  }

  lemma {:induction false} TurnsOfPrefix(known: Peers, a: seq<NodeId>, b: seq<NodeId>, o: Outside, n: nat)
    requires a <= b && n <= |a|
    ensures AfterTurns(known, a, o, n) == AfterTurns(known, b, o, n)
  {
    if n > 0 {
      TurnsOfPrefix(known, a, b, o, n - 1);
    }
  }

  /** Turn `i` visited a peer known at that moment, and posted to the target given, if any. */
  ghost predicate PostedAt(known: Peers, visited: seq<NodeId>, targets: seq<Option<Endpoint>>, o: Outside, i: nat)
    requires i < |visited| == |targets|
  {
    var k := AfterTurns(known, visited, o, i);
    visited[i] in k && targets[i] == TargetOf(k, visited[i], o.clock(i))
  }

  /** `known` is what the turns that visited these peers, and posted to these targets, have made of `known0`. */
  ghost predicate Broadcasted(known0: Peers, known: Peers, visited: seq<NodeId>, targets: seq<Option<Endpoint>>, o: Outside)
  {
    && |targets| == |visited|
    && known == AfterTurns(known0, visited, o, |visited|)
    && forall i :: 0 <= i < |visited| ==> PostedAt(known0, visited, targets, o, i)
  }

  lemma BroadcastStarts(known: Peers, o: Outside)
    ensures Broadcasted(known, known, [], [], o)
  {
  }

  lemma PostedStays(known: Peers, visited: seq<NodeId>, targets: seq<Option<Endpoint>>, o: Outside,
                    peer: NodeId, target: Option<Endpoint>, i: nat)
    requires i < |visited| == |targets|
    ensures PostedAt(known, visited + [peer], targets + [target], o, i) <==> PostedAt(known, visited, targets, o, i)
  {
    hide TargetOf, AfterTurns;
    TurnsOfPrefix(known, visited, visited + [peer], o, i);
  }

  lemma LastTurn(known0: Peers, known: Peers, visited: seq<NodeId>, targets: seq<Option<Endpoint>>, o: Outside, peer: NodeId)
    requires |targets| == |visited| && known == AfterTurns(known0, visited, o, |visited|) && peer in known
    ensures var n := |visited|;
            && PostedAt(known0, visited + [peer], targets + [TargetOf(known, peer, o.clock(n))], o, n)
            && AfterTurns(known0, visited + [peer], o, n + 1) == Turned(known, peer, o, n)
  {
    hide TargetOf, Turned;
    TurnsOfPrefix(known0, visited, visited + [peer], o, |visited|);
  }

  lemma BroadcastedMore(known0: Peers, known: Peers, visited: seq<NodeId>, targets: seq<Option<Endpoint>>, o: Outside, peer: NodeId)
    requires Broadcasted(known0, known, visited, targets, o) && peer in known
    ensures var n := |visited|;
            Broadcasted(known0, Turned(known, peer, o, n), visited + [peer],
                        targets + [TargetOf(known, peer, o.clock(n))], o)
  {
    hide TargetOf, Turned, AfterTurns, PostedAt;
    var n := |visited|;
    LastTurn(known0, known, visited, targets, o, peer);
    forall i | 0 <= i < n
      ensures PostedAt(known0, visited + [peer], targets + [TargetOf(known, peer, o.clock(n))], o, i)
    {
      PostedStays(known0, visited, targets, o, peer, TargetOf(known, peer, o.clock(n)), i);
    }
  }

  class ICNNode {
    const nodeId: NodeId
    var knownPeers: Peers
    /** The iteration list of `knownPeers`. */
    var slots: Slots<NodeId>

    ghost predicate Valid()
      reads this
    {
      Lists(slots, knownPeers.Keys)
    }

    /** The node's map is the one that the protocol's state has for it. */
    ghost predicate Shows(s: State)
      reads this
    {
      nodeId in s.known && s.known[nodeId] == knownPeers
    }

    /** The step can be taken in state `s`, which shows this node. */
    ghost predicate CanTake(net: Net, s: State, e: Event)
      reads this
    {
      NetOk(net) && Shape(net, s) && Enabled(net, s, e) && Shows(s)
    }

    /** After the step this node is as the protocol says, and no other node has changed. */
    ghost predicate HasTaken(net: Net, s: State, e: Event)
      requires NetOk(net) && Shape(net, s) && Enabled(net, s, e)
      reads this
    {
      var s1 := Next(net, s, e);
      Shows(s1) && s1.known.Keys == s.known.Keys && forall m :: m in s.known && m != nodeId ==> s1.known[m] == s.known[m]
    }

    constructor (nodeId: NodeId)
      ensures Valid() && this.nodeId == nodeId && knownPeers == map[]
    {
      this.nodeId, knownPeers, slots := nodeId, map[], [];
    }

    /** knownPeers.set */
    method SetPeer(key: NodeId, info: Info)
      requires Valid()
      modifies this
      ensures Valid() && knownPeers == old(knownPeers)[key := info] && slots == Add(old(slots), key)
    {
      AddLists(slots, knownPeers.Keys, key);
      assert knownPeers[key := info].Keys == knownPeers.Keys + {key};
      knownPeers, slots := knownPeers[key := info], Add(slots, key);
    }

    /** The handler of `POST /api/peers`: a body without an id or an endpoint is refused. */
    method PostPeers(id: string, apiEndpoint: string, now: int) returns (accepted: bool)
      requires Valid()
      modifies this
      ensures Valid() && (accepted <==> id != "" && apiEndpoint != "")
      ensures knownPeers == if accepted then Registers(old(knownPeers), id, apiEndpoint, now) else old(knownPeers)
    {
      accepted := id != "" && apiEndpoint != "";
      if accepted {
        SetPeer(id, Info(id, apiEndpoint, now));
      }
    }

    /** The handler of `GET /api/peers`. */
    method GetPeers() returns (peers: seq<Info>)
      requires Valid()
      ensures (forall n :: n in Entries(slots) ==> n in knownPeers) && peers == Listing(slots, knownPeers)
    {
      AllEntries();
      peers := [];
      for i := 0 to |slots|
        invariant |peers| == |Entries(slots[..i])|
        invariant Entries(slots[..i]) <= Entries(slots)
        invariant forall k :: 0 <= k < |peers| ==> peers[k] == knownPeers[Entries(slots)[k]]
      {
        EntriesStep(slots, i);
        EntriesPrefix(slots, i + 1);
        if slots[i].Some? {
          assert Entries(slots[..i + 1])[|peers|] == slots[i].value;
          peers := peers + [knownPeers[slots[i].value]];
        }
      }
      assert slots[..|slots|] == slots;
    }

    lemma AllEntries()
      requires Valid()
      ensures forall n :: n in Entries(slots) ==> n in knownPeers
      ensures forall i :: 0 <= i < |slots| && slots[i].Some? ==> slots[i].value in knownPeers
    {
      EntriesOf(slots, knownPeers.Keys, |slots|);
      assert slots[..|slots|] == slots;
    }

    /** The end of a round: fetched peers are added, but neither the node itself nor a peer it knows. */
    method MergePeers(peers: seq<Info>, now: int)
      requires Valid()
      modifies this
      ensures Valid() && knownPeers == Merged(old(knownPeers), nodeId, peers, now)
    {
      for i := 0 to |peers|
        invariant Valid() && knownPeers == Merged(old(knownPeers), nodeId, peers[..i], now)
      {
        assert peers[..i + 1][..i] == peers[..i];
        var peer := peers[i];
        if peer.id != nodeId && peer.id !in knownPeers {
          SetPeer(peer.id, Info(peer.id, peer.apiEndpoint, now));
        }
      }
      assert peers[..|peers|] == peers;
    }

    /** The middle of a round: the bootstrap node is known by the URL it was reached at. */
    method AdoptBootstrap(id: NodeId, url: Endpoint, now: int)
      requires Valid()
      modifies this
      ensures Valid() && knownPeers == Registers(old(knownPeers), id, url, now)
    {
      SetPeer(id, Info(id, url, now));
    }

    /** Whom one turn of the broadcast loop posts to. */
    method BroadcastTarget(peer: NodeId, now: int) returns (target: Option<Endpoint>)
      requires peer in knownPeers
      ensures target == TargetOf(knownPeers, peer, now)
    {
      if now - knownPeers[peer].lastSeen > STALE_AFTER {
        return None;
      }
      target := Some(knownPeers[peer].apiEndpoint);
    }

    /** The answer to a post renews the entry of the peer. */
    method Acknowledge(peer: NodeId, answeredBy: NodeId, endpoint: Endpoint, now: int)
      requires Valid()
      modifies this
      ensures Valid() && knownPeers == old(knownPeers)[peer := Info(answeredBy, endpoint, now)]
      ensures slots == Add(old(slots), peer)
    {
      SetPeer(peer, Info(answeredBy, endpoint, now));
    }

    // ---------- the steps of the protocol ----------

    /** The bootstrap node serves the registration of a round. */
    method ServeRegister(id: NodeId, apiEndpoint: Endpoint, now: int, ghost net: Net, ghost s: State, ghost t: nat)
      returns (accepted: bool)
      requires Valid() && CanTake(net, s, Event.ServeRegister(t, now)) && s.ops[t].bootstrap == nodeId
      requires id == s.ops[t].node && apiEndpoint == net.advertised[id]
      modifies this
      ensures Valid() && accepted && HasTaken(net, s, Event.ServeRegister(t, now))
    {
      accepted := PostPeers(id, apiEndpoint, now);
    }

    /** A peer serves the post of a broadcast. */
    method ServePost(id: NodeId, apiEndpoint: Endpoint, now: int, ghost net: Net, ghost s: State, ghost t: nat)
      returns (accepted: bool)
      requires Valid() && CanTake(net, s, Event.ServePost(t, now)) && net.owner[s.ops[t].post.value.endpoint] == nodeId
      requires id == s.ops[t].node && apiEndpoint == net.advertised[id]
      modifies this
      ensures Valid() && accepted && HasTaken(net, s, Event.ServePost(t, now))
    {
      accepted := PostPeers(id, apiEndpoint, now);
    }

    /** The node goes on with its round: it adopts the bootstrap node. */
    method Adopt(id: NodeId, url: Endpoint, now: int, ghost net: Net, ghost s: State, ghost t: nat)
      requires Valid() && CanTake(net, s, Event.Adopt(t, now)) && s.ops[t].node == nodeId
      requires id == s.ops[t].bootstrap && url == s.ops[t].url
      modifies this
      ensures Valid() && HasTaken(net, s, Event.Adopt(t, now))
    {
      AdoptBootstrap(id, url, now);
    }

    /** The bootstrap node serves the fetch of a round: its answer is one that the protocol admits. */
    method ServePeers(ghost net: Net, ghost s: State, ghost t: nat) returns (peers: seq<Info>)
      requires Valid() && NetOk(net) && Shape(net, s) && KnownOk(net, s) && Shows(s)
      requires At(s, t, Adopted) && s.ops[t].bootstrap == nodeId
      ensures Enabled(net, s, Event.ServePeers(t, peers)) && HasTaken(net, s, Event.ServePeers(t, peers))
    {
      assert forall n :: n in knownPeers ==> EntryOk(net, n, s.known[nodeId][n]);
      ListingIsComplete(slots, knownPeers);
      peers := GetPeers();
    }

    /** The node ends its round: it merges what it has fetched. */
    method Merge(peers: seq<Info>, now: int, ghost net: Net, ghost s: State, ghost t: nat)
      requires Valid() && CanTake(net, s, Event.Merge(t, now)) && s.ops[t].node == nodeId && peers == s.ops[t].stage.peers
      modifies this
      ensures Valid() && HasTaken(net, s, Event.Merge(t, now))
    {
      MergePeers(peers, now);
    }

    /** A turn of the broadcast begins: the peer is skipped exactly if the node posts nothing. */
    method Visit(peer: NodeId, now: int, ghost net: Net, ghost s: State, ghost t: nat) returns (target: Option<Endpoint>)
      requires Valid() && CanTake(net, s, Event.Visit(t, peer, now)) && s.ops[t].node == nodeId
      ensures HasTaken(net, s, Event.Visit(t, peer, now))
      ensures var op, op1 := s.ops[t], Next(net, s, Event.Visit(t, peer, now)).ops[t];
              op1 == if target.Some? then op.(post := Some(Post(peer, target.value, false)))
                     else op.(visited := op.visited + {peer}, clean := false)
    {
      target := BroadcastTarget(peer, now);
    }

    /** And ends: the answer of whoever the endpoint reaches renews the entry. */
    method Ack(peer: NodeId, answeredBy: NodeId, endpoint: Endpoint, now: int, ghost net: Net, ghost s: State, ghost t: nat)
      requires Valid() && CanTake(net, s, Event.Ack(t, now)) && s.ops[t].node == nodeId
      requires s.ops[t].post.value == Post(peer, endpoint, true) && answeredBy == net.owner[endpoint]
      modifies this
      ensures Valid() && HasTaken(net, s, Event.Ack(t, now))
    {
      Acknowledge(peer, answeredBy, endpoint, now);
    }

    // ---------- the broadcast loop ----------

    /**
     The broadcast loop over the live map. It visits every peer known at its end, newcomers included, once each and
     in order; in each turn it posts to the peer's endpoint exactly if the peer is fresh, and an answer renews the entry.
     */
    method Broadcast(o: Outside) returns (visited: seq<NodeId>, targets: seq<Option<Endpoint>>)
      requires Valid() && Full(slots)
      modifies this
      ensures Valid() && Full(slots) && old(slots) <= slots && visited == Entries(slots)
      ensures Distinct(visited) && forall n :: n in visited <==> n in knownPeers
      ensures Broadcasted(old(knownPeers), knownPeers, visited, targets, o)
    {
      hide Broadcasted, AfterTurns, PostedAt, TargetOf, Turned, Lists, Distinct, Full;
      BroadcastStarts(knownPeers, o);
      var i := 0;
      visited, targets := [], [];
      while i < |slots|
        invariant Valid() && Full(slots) && i <= |slots| && old(slots) <= slots
        invariant visited == Entries(slots[..i]) && |visited| == i
        invariant Broadcasted(old(knownPeers), knownPeers, visited, targets, o)
        decreases Coming(o, i) + |slots| - i
      {
        ghost var before := slots;
        FilledSlot(i);
        var peer := slots[i].value;
        BroadcastedMore(old(knownPeers), knownPeers, visited, targets, o, peer);
        var target := Turn(peer, o, i);
        assert before[..i + 1] == slots[..i + 1] && before[..i] == slots[..i];
        EntriesStep(slots, i);
        visited, targets := visited + [peer], targets + [target];
        i := i + 1;
      }
      assert slots[..|slots|] == slots;
      EntriesAre(slots, knownPeers.Keys);
    }

    /** One turn of the loop: the post, the registrations that come in meanwhile, and the answer, which is from the peer itself. */
    method Turn(peer: NodeId, o: Outside, i: nat) returns (target: Option<Endpoint>)
      requires Valid() && Full(slots) && peer in knownPeers
      modifies this
      ensures Valid() && Full(slots) && old(slots) <= slots
      ensures |slots| + Coming(o, i + 1) <= |old(slots)| + Coming(o, i)
      ensures target == TargetOf(old(knownPeers), peer, o.clock(i)) && knownPeers == Turned(old(knownPeers), peer, o, i)
    {
      target := BroadcastTarget(peer, o.clock(i));
      if target.Some? {
        Admit(ArrivalsAt(o, i));
        if o.answered(i) {
          InSlots(peer);
          Acknowledge(peer, peer, target.value, o.clock(i));
        }
      }
    }

    /** The registrations that are served while a turn waits. */
    method Admit(arrivals: seq<Info>)
      requires Valid() && Full(slots)
      modifies this
      ensures Valid() && Full(slots) && old(slots) <= slots && |slots| <= |old(slots)| + |arrivals|
      ensures knownPeers == Admitted(old(knownPeers), arrivals) && old(knownPeers).Keys <= knownPeers.Keys
    {
      for i := 0 to |arrivals|
        invariant Valid() && Full(slots) && old(slots) <= slots && |slots| <= |old(slots)| + i
        invariant knownPeers == Admitted(old(knownPeers), arrivals[..i]) && old(knownPeers).Keys <= knownPeers.Keys
      {
        assert arrivals[..i + 1][..i] == arrivals[..i];
        SetPeer(arrivals[i].id, Info(arrivals[i].id, arrivals[i].apiEndpoint, arrivals[i].lastSeen));
      }
      assert arrivals[..|arrivals|] == arrivals;
    }

    lemma InSlots(peer: NodeId)
      requires Valid()
      ensures Some(peer) in slots <==> peer in knownPeers
    {
    }

    lemma FilledSlot(i: nat)
      requires Valid() && Full(slots) && i < |slots|
      ensures slots[i].Some? && slots[i].value in knownPeers
    {
    }
  }
}
