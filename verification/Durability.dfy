/**
 What a caller may rely on once its put has been applied: the store holds its change, or a later version of
 the same proposal, at every later moment, and so after a crash.
 */
module Durability {
  import opened Basics
  import opened JsObject
  import opened Tally
  import opened BallotBox
  import opened VotingProtocol

  /** The version written by the put `p` is superseded by nothing but later versions of the same proposal. */
  ghost predicate LaterThan(p: Put, r: Record) {
    Grows(p.record, r)
  }

  ghost predicate Durable(s: State, p: Put) {
    && p.id in BoxOf(s) && LaterThan(p, BoxOf(s)[p.id])
    && (forall i :: 0 <= i < |s.pending| && s.pending[i].id == p.id && s.pending[i].ticket >= p.ticket ==>
          LaterThan(p, s.pending[i].record))
    && (p.ticket in s.acked ==> p.id in s.store && LaterThan(p, s.store[p.id]))
    && (p.ticket in s.acked || p in s.pending)
  }

  lemma GrowsTransitively(a: Record, b: Record, c: Record)
    requires Grows(a, b) && Grows(b, c)
    ensures Grows(a, c)
  {
    forall v | Has(a.votes, v) ensures Get(c.votes, v) == Get(a.votes, v) {
      assert Get(b.votes, v) == Get(a.votes, v);
      assert Has(b.votes, v);
    }
  }

  /** The put just issued is durable. */
  lemma IssuedIsDurable(s: State)
    requires QueueOk(s) && s.pending != []
    ensures Durable(s, s.pending[|s.pending| - 1])
  {
    var n := |s.pending| - 1;
    var p := s.pending[n];
    assert s.pending == s.pending[..n] + [p];
    DrainAppend(s.store, s.pending[..n], p);
    assert Grows(p.record, p.record);
  }

  lemma IssueKeepsDurable(s: State, s1: State, q: Put, p: Put)
    requires Durable(s, p) && Issues(s, s1, q)
    requires p.id in BoxOf(s1) && Grows(BoxOf(s)[p.id], BoxOf(s1)[p.id])
    ensures Durable(s1, p)
  {
    DrainAppend(s.store, s.pending, q);
    GrowsTransitively(p.record, BoxOf(s)[p.id], BoxOf(s1)[p.id]);
    assert s1.pending[|s.pending|] == q;
    if p in s.pending {
      var i :| 0 <= i < |s.pending| && s.pending[i] == p;
      assert s1.pending[i] == p;
    }
  }

  lemma ApplyKeepsDurable(s: State, p: Put)
    requires QueueOk(s) && RefsOk(s) && Durable(s, p) && s.pending != []
    ensures Durable(Next(s, ApplyPut).0, p)
  {
    var q, s1 := s.pending[0], Next(s, ApplyPut).0;
    if p.ticket !in s.acked && p != q {
      var i :| 0 <= i < |s.pending| && s.pending[i] == p;
      assert q.ticket < p.ticket;
      assert s1.pending[i - 1] == p;
    }
    assert forall i :: 0 <= i < |s1.pending| ==> s1.pending[i] == s.pending[i + 1];
  }

  lemma StepKeepsDurable(s: State, e: Event, p: Put)
    requires Reachable(s) && Enabled(s, e) && Durable(s, p)
    ensures RefsOk(s) && Reachable(Next(s, e).0) && Durable(Next(s, e).0, p)
  {
    ReachableStep(s, e);
    ReachableQueue(s);
    if e == ApplyPut {
      ApplyKeepsDurable(s, p);
    } else {
      BoxGrows(s, e, p.id);
      OtherKeepsDurable(s, e, p);
    }
  }

  lemma OtherKeepsDurable(s: State, e: Event, p: Put)
    requires RefsOk(s) && Enabled(s, e) && !e.ApplyPut? && Durable(s, p)
    requires p.id in BoxOf(Next(s, e).0) && Grows(BoxOf(s)[p.id], BoxOf(Next(s, e).0)[p.id])
    ensures Durable(Next(s, e).0, p)
  {
    var s1 := Next(s, e).0;
    StepOnStore(s, e);
    if q :| Issues(s, s1, q) {
      IssueKeepsDurable(s, s1, q, p);
    }
  }

  lemma ReachableQueue(s: State)
    requires Reachable(s)
    ensures RefsOk(s) && QueueOk(s) && AllGood(BoxOf(s)) && AllGood(s.store)
  {
    ReachableInv(s);
  }

  lemma BoxGrows(s: State, e: Event, id: Id)
    requires Reachable(s) && Enabled(s, e) && id in BoxOf(s)
    ensures RefsOk(s) && id in BoxOf(Next(s, e).0) && Grows(BoxOf(s)[id], BoxOf(Next(s, e).0)[id])
  {
    ReachableStep(s, e);
    ReachableQueue(s);
    if CommandOf(s, e).Some? {
      StepGrows(BoxOf(s), CommandOf(s, e).value, id);
    }
  }

  lemma {:induction false} RunKeepsDurable(s: State, es: seq<Event>, p: Put)
    requires Reachable(s) && Durable(s, p)
    ensures Reachable(Reach(s, es)) && Durable(Reach(s, es), p)
  {
    if es != [] {
      RunKeepsDurable(s, es[..|es| - 1], p);
      if Enabled(Reach(s, es[..|es| - 1]), es[|es| - 1]) {
        StepKeepsDurable(Reach(s, es[..|es| - 1]), es[|es| - 1], p);
      }
    }
  }

  /**
   A vote is durable: once its put has been applied, which castVote waits for before it returns, the store has
   the ballot as it was cast at every later moment, whatever interleaves.
   */
  lemma AcknowledgedVoteIsStored(s: State, e: Event, es: seq<Event>)
    requires Reachable(s) && Enabled(s, e) && e.VoteCall? && e.id in s.cache && RefsOk(s) && Next(s, e).1 == Some(Done)
    ensures var s2 := Reach(Next(s, e).0, es);
            s.next in s2.acked ==>
              e.id in s2.store && Get(s2.store[e.id].votes, e.voter) == Some(Vote(e.option, e.weight, e.now))
  {
    var s1 := Next(s, e).0;
    ReachableStep(s, e);
    ReachableQueue(s1);
    VoteIsIssued(s, e);
    IssuedIsDurable(s1);
    RunKeepsDurable(s1, es, s1.pending[|s1.pending| - 1]);
  }

  lemma VoteIsIssued(s: State, e: Event)
    requires Reachable(s) && Enabled(s, e) && e.VoteCall? && e.id in s.cache && RefsOk(s) && Next(s, e).1 == Some(Done)
    ensures var s1 := Next(s, e).0;
            && s1.pending != []
            && var p := s1.pending[|s1.pending| - 1];
               p.ticket == s.next && p.id == e.id
               && Has(p.record.votes, e.voter) && Get(p.record.votes, e.voter) == Some(Vote(e.option, e.weight, e.now))
  {
    ReachableCached(s, e.id);
    PutSound(s.heap[s.cache[e.id]].votes, e.voter, Vote(e.option, e.weight, e.now));
  }

  /** So is a finalization: the store keeps exactly the record that was closed. */
  lemma AcknowledgedClosureIsStored(s: State, e: Event, es: seq<Event>)
    requires Reachable(s) && Enabled(s, e) && e.FinalizeCall? && e.id in s.cache && RefsOk(s) && Next(s, e).1 == Some(Done)
    ensures s.cache[e.id] < |s.heap|
    ensures var s2 := Reach(Next(s, e).0, es);
            s.next in s2.acked ==> e.id in s2.store && s2.store[e.id] == Closed(s.heap[s.cache[e.id]], e.now)
  {
    var s1 := Next(s, e).0;
    ReachableStep(s, e);
    ReachableQueue(s1);
    IssuedIsDurable(s1);
    RunKeepsDurable(s1, es, s1.pending[|s1.pending| - 1]);
  }

  /** What is in the store survives a crash: it is in every state of the next life of the process. */
  lemma StoredSurvivesCrash(s: State, again: State, more: seq<Event>, id: Id)
    requires Reachable(s) && Initial(again, s.store) && id in s.store
    ensures id in BoxOf(Reach(again, more)) && Grows(s.store[id], BoxOf(Reach(again, more))[id])
  {
    RunRefines(again, s.store, more);
    RunGrows(s.store, Commands(again, more), id);
  }
}
