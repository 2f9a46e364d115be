/**
 When a known peer is fresh. The time in an entry is that of the last contact: the last registration, adoption, merge or answer
 by which a node heard of the peer. So a broadcast posts to a peer exactly within five minutes of that.
 */
module Freshness {
  import opened Basics
  import opened DiscoveryProtocol

  /** The contact that a step gives node `n` with peer `p`, and its time. */
  ghost function Contact(net: Net, s: State, e: Event, n: NodeId, p: NodeId): Option<int>
    requires NetOk(net) && Shape(net, s) && Enabled(net, s, e)
  {
    match e
    case ServeRegister(t, now) => if s.ops[t].bootstrap == n && s.ops[t].node == p then Some(now) else None
    case Adopt(t, now) => if s.ops[t].node == n && s.ops[t].bootstrap == p then Some(now) else None
    case Merge(t, now) =>
      if s.ops[t].node == n && n != p && p in Ids(s.ops[t].stage.peers) && !Knows(s, n, p) then Some(now) else None
    case ServePost(t, now) =>
      if net.owner[s.ops[t].post.value.endpoint] == n && s.ops[t].node == p then Some(now) else None
    case Ack(t, now) => if s.ops[t].node == n && s.ops[t].post.value.peer == p then Some(now) else None
    case _ => None
  }

  /** The last contact in a run from the beginning, if there has been any. */
  ghost function LastContact(net: Net, es: seq<Event>, n: NodeId, p: NodeId): Option<int>
    requires NetOk(net)
  {
    if es == [] then None
    else
      var front, e := es[..|es| - 1], es[|es| - 1];
      var s := Reach(net, Initial(net), front);
      if Shape(net, s) && Enabled(net, s, e) && Contact(net, s, e, n, p).Some? then Contact(net, s, e, n, p)
      else LastContact(net, front, n, p)
  }

  /** A contact writes the entry with its time, and no other step changes it. */
  lemma ContactWrites(net: Net, s: State, e: Event, n: NodeId, p: NodeId)
    requires NetOk(net) && Shape(net, s) && Enabled(net, s, e) && n in s.known
    ensures var s1, contact := Next(net, s, e), Contact(net, s, e, n, p);
            && n in s1.known
            && (contact.Some? ==> Knows(s1, n, p) && s1.known[n][p].lastSeen == contact.value)
            && (contact.None? ==> (Knows(s1, n, p) <==> Knows(s, n, p))
                                  && (Knows(s, n, p) ==> s1.known[n][p] == s.known[n][p]))
  {
    if e.Merge? {
      MergedIs(s.known[s.ops[e.t].node], s.ops[e.t].node, s.ops[e.t].stage.peers, e.now);
    }
  }

  /** In every run a node knows exactly the peers it has been in contact with, each with the time of the last contact. */
  lemma {:induction false} LastSeenIsLastContact(net: Net, es: seq<Event>, n: NodeId, p: NodeId)
    requires NetOk(net) && n in net.advertised
    ensures var s := Reach(net, Initial(net), es);
            && n in s.known
            && (Knows(s, n, p) <==> LastContact(net, es, n, p).Some?)
            && (Knows(s, n, p) ==> s.known[n][p].lastSeen == LastContact(net, es, n, p).value)
  {
    hide Next, Contact;
    if es != [] {
      var front, e := es[..|es| - 1], es[|es| - 1];
      LastSeenIsLastContact(net, front, n, p);
      var s := Reach(net, Initial(net), front);
      if Shape(net, s) && Enabled(net, s, e) {
        ContactWrites(net, s, e, n, p);
      }
    }
  }

  /**
   A turn of a broadcast, in any run: the post goes out, to the endpoint known for the peer, exactly if the last contact is
   not more than five minutes ago; else the peer is skipped, and the broadcast is not clean.
   */
  lemma PostedWithinFiveMinutes(net: Net, es: seq<Event>, t: nat, p: NodeId, now: int)
    requires NetOk(net)
    requires var s := Reach(net, Initial(net), es); Shape(net, s) && Enabled(net, s, Visit(t, p, now))
    ensures var s := Reach(net, Initial(net), es);
            var n, op := s.ops[t].node, Next(net, s, Visit(t, p, now)).ops[t];
            && LastContact(net, es, n, p).Some?
            && (op.post.Some? <==> now - LastContact(net, es, n, p).value <= 300_000)
            && (op.post.Some? ==> op.post.value == Post(p, s.known[n][p].apiEndpoint, false) && op.clean == s.ops[t].clean)
            && (op.post.None? ==> p in op.visited && !op.clean)
  {
    var s := Reach(net, Initial(net), es);
    LastSeenIsLastContact(net, es, s.ops[t].node, p);
  }
}
