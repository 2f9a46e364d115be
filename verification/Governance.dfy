/**
 The governance system in memory: proposal objects that the cache and the suspended operations share
 and change in place. Each method is one segment between awaits and does one step of the voting protocol;
 the expiry sweep is the loop that deletes from the map it walks.
 */
module Governance {
  import opened Basics
  import opened JsObject
  import opened Tally
  import opened BallotBox
  import opened JsMap
  import P = VotingProtocol

  class Proposal {
    /** The object's number in the protocol's heap. */
    ghost const ref: nat
    const id: Id
    const terms: Terms
    var votes: Obj<Vote>
    var status: Status
    var results: Option<Results>
    var outcome: Option<Key>
    var finalizedAt: Option<int>

    /** JSON.parse of a stored record, or the literal of a new one. */
    constructor (ghost ref: nat, id: Id, r: Record)
      ensures this.ref == ref && this.id == id && Snapshot() == r
    {
      this.ref, this.id, terms, votes, status := ref, id, r.terms, r.votes, r.status;
      results, outcome, finalizedAt := r.results, r.outcome, r.finalizedAt;
    }

    /** JSON.stringify of the object as it is now. */
    function Snapshot(): Record
      reads this
    {
      Record(terms, votes, status, results, outcome, finalizedAt)
    }
  }

  /** A suspended operation, with the object it holds. */
  datatype Task =
    | Creating(id: Id, proposal: Proposal)
    | Voting(id: Id, proposal: Proposal)
    | Finalizing(id: Id, proposal: Proposal)
    | VoteRead(id: Id, fetch: P.Fetch, voter: Key, option: Key, weight: real)
    | FinalizeRead(id: Id, fetch: P.Fetch)
  {
    predicate HoldsObject() {
      Creating? || Voting? || Finalizing?
    }

    ghost function Op(): P.Op {
      match this
      case Creating(id, p) => P.Creating(id, p.ref)
      case Voting(id, p) => P.Voting(id, p.ref)
      case Finalizing(id, p) => P.Finalizing(id, p.ref)
      case VoteRead(id, fetch, voter, option, weight) => P.VoteRead(id, fetch, voter, option, weight)
      case FinalizeRead(id, fetch) => P.FinalizeRead(id, fetch)
    }
  }

  class GovernanceSystem {
    var activeProposals: map<Id, Proposal>
    /** The iteration list of `activeProposals`. */
    var slots: Slots<Id>
    var store: Box
    var pending: seq<P.Put>
    var acked: set<nat>
    var tasks: map<nat, Task>
    var nextTicket: nat
    var creating: map<Id, nat>
    /** Every proposal object made so far. */
    ghost var objects: seq<Proposal>

    /** Every object in use is one of `objects`, at its own number. */
    ghost predicate Linked()
      reads this, objects
    {
      && (forall i :: 0 <= i < |objects| ==> objects[i].ref == i)
      && (forall id :: id in activeProposals ==> Known(activeProposals[id], id))
      && (forall t :: t in tasks && tasks[t].HoldsObject() ==> Known(tasks[t].proposal, tasks[t].id))
      && Lists(slots, activeProposals.Keys)
    }

    ghost predicate Known(p: Proposal, id: Id)
      reads this
    {
      p.ref < |objects| && objects[p.ref] == p && p.id == id
    }

    /** The state of the protocol. */
    ghost function View(): P.State
      reads this, objects
    {
      P.State(
        seq(|objects|, i requires 0 <= i < |objects| reads this, objects => objects[i].Snapshot()),
        Refs(activeProposals),
        store, pending, acked,
        map t | t in tasks :: tasks[t].Op(),
        nextTicket, creating)
    }

    lemma LinkedRefs()
      requires Linked()
      ensures P.RefsOk(View())
    {
    }

    /** Nothing in memory yet. */
    constructor (disk: Box)
      ensures Linked() && View() == P.State([], map[], disk, [], {}, map[], 0, map[]) && objects == []
    {
      activeProposals, slots, store, pending, acked := map[], [], disk, [], {};
      tasks, nextTicket, creating, objects := map[], 0, map[], [];
    }

    /** `_loadActiveProposals`: the records of the store are read in the order of `keys`, and the active ones cached. */
    method LoadActiveProposals(keys: seq<Id>)
      requires Linked() && View() == P.State([], map[], store, [], {}, map[], 0, map[]) && objects == []
      requires AllGood(store) && forall id :: id in keys <==> id in store
      modifies this
      ensures Linked() && P.Initial(View(), store) && store == old(store) && fresh(objects)
    {
      hide Linked, Loaded;
      LoadedNone();
      for n := 0 to |keys|
        invariant Linked() && fresh(objects) && store == old(store) && Loaded(keys[..n])
        invariant pending == [] && acked == {} && tasks == map[] && creating == map[]
      {
        assert keys[..n + 1] == keys[..n] + [keys[n]];
        assert keys[n] in keys;
        LoadRecord(keys[n], keys[..n]);
      }
      assert keys[..|keys|] == keys;
      LoadedIsInitial(keys);
    }

    lemma LoadedNone()
      requires View() == P.State([], map[], store, [], {}, map[], 0, map[])
      ensures Loaded([]) && pending == [] && acked == {} && tasks == map[] && creating == map[]
    {
      assert View().cache.Keys == activeProposals.Keys && View().ops.Keys == tasks.Keys;
    }

    lemma LoadedIsInitial(keys: seq<Id>)
      requires Linked() && Loaded(keys) && AllGood(store) && forall id :: id in keys <==> id in store
      requires pending == [] && acked == {} && tasks == map[] && creating == map[]
      ensures P.Initial(View(), store)
    {
    }

    method LoadRecord(id: Id, ghost before: seq<Id>)
      requires Linked() && id in store && Loaded(before)
      modifies this`activeProposals, this`slots, this`objects
      ensures Linked() && Loaded(before + [id]) && fresh(set p | p in objects && p !in old(objects))
    {
      if store[id].status.Active? {
        var p := Parse(id, store[id]);
        CacheSet(id, p);
      }
    }

    /** Of the records `ids`, exactly the active ones are cached, as they are in the store. */
    ghost predicate Loaded(ids: seq<Id>)
      reads this, activeProposals.Values
    {
      && (forall id :: id in activeProposals <==> id in ids && id in store && store[id].status.Active?)
      && (forall id :: id in activeProposals ==> activeProposals[id].Snapshot() == store[id])
    }

    /** activeProposals.set */
    method CacheSet(id: Id, p: Proposal)
      requires Linked() && Known(p, id)
      modifies this`activeProposals, this`slots
      ensures Linked()
      ensures activeProposals == old(activeProposals)[id := p] && slots == Add(old(slots), id)
      ensures View() == old(View()).(cache := old(View()).cache[id := p.ref])
    {
      AddLists(slots, activeProposals.Keys, id);
      RefsWith(activeProposals, id, p);
      activeProposals, slots := activeProposals[id := p], Add(slots, id);
    }

    /** The store applies the oldest pending put. */
    method ApplyPut()
      requires Linked() && pending != []
      modifies this`store, this`pending, this`acked
      ensures Linked() && P.RefsOk(old(View())) && View() == P.Next(old(View()), P.ApplyPut).0
    {
      LinkedRefs();
      var p := pending[0];
      store, pending, acked := store[p.id := p.record], pending[1..], acked + {p.ticket};
    }

    /** The store answers a read. */
    method ServeGet(t: nat)
      requires Linked() && P.Enabled(View(), P.ServeGet(t))
      modifies this`tasks
      ensures Linked() && P.RefsOk(old(View())) && View() == P.Next(old(View()), P.ServeGet(t)).0
    {
      LinkedRefs();
      var id := tasks[t].id;
      var found := P.Arrived(if id in store then Some(store[id]) else None);
      tasks := tasks[t := match tasks[t] case VoteRead(_, _, v, o, w) => VoteRead(id, found, v, o, w) case _ => FinalizeRead(id, found)];
      assert View().ops == P.Next(old(View()), P.ServeGet(t)).0.ops;
    }

    /** createProposal up to the await of the put. */
    method CreateCall(id: Id, title: string, description: string, kind: Kind, options: seq<Key>,
                      authorId: string, votingPeriod: int, now: int)
      requires Linked() && P.Fresh(View(), id)
      modifies this
      ensures Linked() && fresh(set p | p in objects && p !in old(objects)) && P.RefsOk(old(View()))
      ensures View() == P.Next(old(View()), P.CreateCall(id, MakeTerms(title, description, kind, options, authorId, votingPeriod, now))).0
    {
      LinkedRefs();
      ghost var was := View();
      var period := if votingPeriod == 0 then DEFAULT_PERIOD else votingPeriod;
      var terms := Terms(title, description, kind, options, authorId, now, period, now + period);
      var r := Record(terms, [], Active, None, None, None);
      var p := Parse(id, r);
      creating := creating[id := nextTicket];
      Write(p, id, Creating(id, p));
      assert View().heap == (was.heap + [r])[|was.heap| := r];
    }

    /** The object, just changed, is written to the store and the operation is suspended. */
    method Write(p: Proposal, id: Id, task: Task)
      requires Linked() && Known(p, id) && (task == Creating(id, p) || task == Voting(id, p) || task == Finalizing(id, p))
      modifies this`pending, this`tasks, this`nextTicket
      ensures Linked()
      ensures var was := old(View());
              View() == was.(pending := was.pending + [P.Put(was.next, id, p.Snapshot())],
                             ops := was.ops[was.next := task.Op()], next := was.next + 1)
    {
      ghost var was := View();
      pending := pending + [P.Put(nextTicket, id, p.Snapshot())];
      tasks, nextTicket := tasks[nextTicket := task], nextTicket + 1;
      assert View().ops == was.ops[was.next := task.Op()];
    }

    /** After the put: the new proposal enters the cache. */
    method CreateResume(t: nat)
      requires Linked() && P.Enabled(View(), P.CreateResume(t))
      modifies this
      ensures Linked() && objects == old(objects)
      ensures P.RefsOk(old(View())) && View() == P.Next(old(View()), P.CreateResume(t)).0
    {
      LinkedRefs();
      var id, p := tasks[t].id, tasks[t].proposal;
      ghost var next := P.Next(View(), P.CreateResume(t)).0;
      Finish(t);
      CacheCreated(id, p);
      assert View() == next;
    }

    method CacheCreated(id: Id, p: Proposal)
      requires Linked() && Known(p, id)
      modifies this`activeProposals, this`slots, this`creating
      ensures Linked()
      ensures View() == old(View()).(cache := old(View()).cache[id := p.ref], creating := old(View()).creating - {id})
    {
      CacheSet(id, p);
      creating := creating - {id};
    }

    /** The operation is over. */
    method Finish(t: nat)
      requires Linked() && t in tasks
      modifies this`tasks
      ensures Linked() && tasks == old(tasks) - {t}
      ensures View() == P.Finish(old(View()), t)
    {
      ghost var was := View();
      tasks := tasks - {t};
      assert View().ops == was.ops - {t};
    }

    method Suspend(task: Task)
      requires Linked() && !task.HoldsObject()
      modifies this`tasks, this`nextTicket
      ensures Linked() && View() == P.Suspend(old(View()), task.Op())
    {
      ghost var was := View();
      tasks, nextTicket := tasks[nextTicket := task], nextTicket + 1;
      assert View().ops == was.ops[was.next := task.Op()];
    }

    // ---------- castVote ----------

    /** From the entry to the first await: all the checks and the recording of the vote, or a read of the store. */
    method VoteCall(id: Id, voter: Key, option: Key, weight: real, now: int) returns (reply: Option<Reply>)
      requires Linked() && id !in creating
      modifies this, objects
      ensures Linked() && objects == old(objects)
      ensures P.RefsOk(old(View())) && (View(), reply) == P.Next(old(View()), P.VoteCall(id, voter, option, weight, now))
    {
      LinkedRefs();
      if id in activeProposals {
        var r := RecordVote(activeProposals[id], id, voter, option, weight, now);
        reply := Some(r);
      } else {
        Suspend(VoteRead(id, P.Waiting, voter, option, weight));
        reply := None;
      }
    }

    /** After the read of the store: the same checks on the copy that was read. */
    method VoteReadResume(t: nat, now: int) returns (reply: Option<Reply>)
      requires Linked() && P.Enabled(View(), P.VoteReadResume(t, now))
      modifies this, objects
      ensures Linked() && fresh(set p | p in objects && p !in old(objects))
      ensures P.RefsOk(old(View())) && (View(), reply) == P.Next(old(View()), P.VoteReadResume(t, now))
    {
      LinkedRefs();
      var task := tasks[t];
      Finish(t);
      if task.fetch.record == None {
        return Some(NotFound);
      }
      var p := Parse(task.id, task.fetch.record.value);
      var r := RecordVote(p, task.id, task.voter, task.option, task.weight, now);
      reply := Some(r);
    }

    /** JSON.parse makes an object that nobody else holds. */
    method Parse(id: Id, r: Record) returns (p: Proposal)
      requires Linked()
      modifies this`objects
      ensures Linked() && fresh(p) && objects == old(objects) + [p] && Known(p, id) && p.Snapshot() == r
      ensures View() == old(View()).(heap := old(View()).heap + [r]) && p.ref == |old(objects)|
    {
      ghost var was := View();
      p := new Proposal(|objects|, id, r);
      objects := objects + [p];
      assert View().heap == was.heap + [r];
    }

    /** The segment without an await: checks, then the vote is written into the object and a put is issued. */
    method RecordVote(p: Proposal, id: Id, voter: Key, option: Key, weight: real, now: int) returns (reply: Reply)
      requires Linked() && Known(p, id)
      modifies this`pending, this`tasks, this`nextTicket, p
      ensures Linked()
      ensures (View(), reply) == P.RecordVote(old(View()), p.ref, id, voter, option, weight, now)
    {
      if !p.status.Active? {
        return NotActive;
      }
      if now > p.terms.endsAt {
        return Ended;
      }
      if Has(p.votes, voter) {
        return AlreadyVoted;
      }
      if option !in p.terms.options {
        return InvalidOption;
      }
      ghost var was := View();
      p.votes := Put(p.votes, voter, Vote(option, weight, now));
      assert View() == was.(heap := was.heap[p.ref := p.Snapshot()]);
      Write(p, id, Voting(id, p));
      reply := Done;
    }

    /** After the put: the object is set in the cache again, if the proposal is still there. */
    method VoteResume(t: nat)
      requires Linked() && P.Enabled(View(), P.VoteResume(t))
      modifies this
      ensures Linked() && objects == old(objects)
      ensures P.RefsOk(old(View())) && View() == P.Next(old(View()), P.VoteResume(t)).0
    {
      LinkedRefs();
      var id, p := tasks[t].id, tasks[t].proposal;
      Finish(t);
      if id in activeProposals {
        CacheSet(id, p);
      }
    }

    // ---------- finalizeProposal ----------

    /** From the entry to the first await. */
    method FinalizeCall(id: Id, now: int) returns (reply: Option<Reply>)
      requires Linked() && id !in creating
      requires id in activeProposals ==> Good(activeProposals[id].Snapshot())
      modifies this`pending, this`tasks, this`nextTicket, objects
      ensures Linked() && objects == old(objects)
      ensures P.RefsOk(old(View())) && (View(), reply) == P.Next(old(View()), P.FinalizeCall(id, now))
    {
      LinkedRefs();
      if id in activeProposals {
        var r := CloseProposal(activeProposals[id], id, now);
        reply := Some(r);
      } else {
        Suspend(FinalizeRead(id, P.Waiting));
        reply := None;
      }
    }

    /** After the read of the store. */
    method FinalizeReadResume(t: nat, now: int) returns (reply: Option<Reply>)
      requires Linked() && P.Enabled(View(), P.FinalizeReadResume(t, now))
      requires tasks[t].fetch.record.Some? ==> Good(tasks[t].fetch.record.value)
      modifies this, objects
      ensures Linked() && fresh(set p | p in objects && p !in old(objects))
      ensures P.RefsOk(old(View())) && (View(), reply) == P.Next(old(View()), P.FinalizeReadResume(t, now))
    {
      LinkedRefs();
      var task := tasks[t];
      Finish(t);
      if task.fetch.record == None {
        return Some(NotFound);
      }
      var p := Parse(task.id, task.fetch.record.value);
      var r := CloseProposal(p, task.id, now);
      reply := Some(r);
    }

    /** The segment without an await: count, decide, mark the object as finalized, issue the put. */
    method CloseProposal(p: Proposal, id: Id, now: int) returns (reply: Reply)
      requires Linked() && Known(p, id) && Good(p.Snapshot())
      modifies this`pending, this`tasks, this`nextTicket, p
      ensures Linked()
      ensures (View(), reply) == P.CloseProposal(old(View()), p.ref, id, now)
    {
      if !p.status.Active? {
        return NotActive;
      }
      var counted, winningOption := Count(p);
      ghost var was := View();
      p.status, p.results, p.outcome, p.finalizedAt := Finalized, Some(counted), winningOption, Some(now);
      assert p.Snapshot() == Closed(was.heap[p.ref], now);
      assert View() == was.(heap := was.heap[p.ref := p.Snapshot()]);
      Write(p, id, Finalizing(id, p));
      reply := Done;
    }

    /** The count cannot fail: every vote that was let in has a row. */
    method Count(p: Proposal) returns (counted: Results, winningOption: Option<Key>)
      requires Good(p.Snapshot())
      ensures counted == TallyOf(p.terms.options, Values(p.votes)) && winningOption == Outcome(counted.options, p.terms.kind)
    {
      GoodIsCountable(p.Snapshot());
      var r := CountVotes(p.terms.options, p.votes);
      counted := r.value;
      winningOption := DetermineOutcome(counted, p.terms.kind);
    }

    /** After the put: the proposal leaves the cache. */
    method FinalizeResume(t: nat)
      requires Linked() && P.Enabled(View(), P.FinalizeResume(t))
      modifies this
      ensures Linked() && objects == old(objects)
      ensures activeProposals == old(activeProposals) - {old(tasks)[t].id} && slots == Erase(old(slots), old(tasks)[t].id)
      ensures P.RefsOk(old(View())) && View() == P.Next(old(View()), P.FinalizeResume(t)).0
    {
      LinkedRefs();
      var id := tasks[t].id;
      Finish(t);
      CacheDelete(id);
    }

    /** activeProposals.delete */
    method CacheDelete(id: Id)
      requires Linked()
      modifies this`activeProposals, this`slots
      ensures Linked()
      ensures activeProposals == old(activeProposals) - {id} && slots == Erase(old(slots), id)
      ensures View() == old(View()).(cache := old(View()).cache - {id})
    {
      EraseLists(slots, activeProposals.Keys, id);
      RefsWithout(activeProposals, id);
      activeProposals, slots := activeProposals - {id}, Erase(slots, id);
    }

    // ---------- the expiry sweep ----------

    method FlushOne()
      requires Linked() && P.Reachable(View()) && pending != []
      modifies this`store, this`pending, this`acked
      ensures Linked() && P.Reachable(View()) && P.BoxOf(View()) == old(P.BoxOf(View()))
      ensures pending == old(pending)[1..] && acked == old(acked) + {old(pending)[0].ticket}
    {
      hide P.Reachable, P.BoxOf;
      P.ReachableStep(View(), P.ApplyPut);
      ghost var s := View();
      ApplyPut();
      assert View().pending == s.pending[1..] && View().acked == s.acked + {s.pending[0].ticket};
    }

    /** All pending puts are applied while nothing else happens. */
    method Flush()
      requires Linked() && P.Reachable(View())
      modifies this`store, this`pending, this`acked
      ensures Linked() && P.Reachable(View()) && P.BoxOf(View()) == old(P.BoxOf(View()))
      ensures forall i :: 0 <= i < |old(pending)| ==> old(pending)[i].ticket in acked
    {
      hide P.Reachable, P.BoxOf;
      ghost var box, was, n := P.BoxOf(View()), pending, 0;
      while pending != []
        invariant Linked() && P.Reachable(View()) && P.BoxOf(View()) == box
        invariant n <= |was| && pending == was[n..]
        invariant forall i :: 0 <= i < n ==> was[i].ticket in acked
        decreases |pending|
      {
        FlushOne();
        n := n + 1;
      }
    }

    /** The call of finalizeProposal on a cached proposal. */
    method BeginFinalization(id: Id, now: int) returns (done: bool, t: nat)
      requires Linked() && P.Reachable(View()) && id in activeProposals
      modifies this`pending, this`tasks, this`nextTicket, objects
      ensures Linked() && P.Reachable(View()) && objects == old(objects)
      ensures id in old(P.BoxOf(View())) && (done <==> old(P.BoxOf(View()))[id].status.Active?)
      ensures P.BoxOf(View()) == Step(old(P.BoxOf(View())), Close(id, now))
      ensures done ==> |pending| > 0 && pending[|pending| - 1].ticket == t
      ensures done ==> t in View().ops && View().ops[t].Finalizing? && View().ops[t].id == id
    {
      ghost var s0, p := View(), activeProposals[id];
      assert s0.cache[id] == p.ref && s0.heap[p.ref] == p.Snapshot();
      P.ReachableCached(s0, id);
      P.ReachableStep(s0, P.FinalizeCall(id, now));
      t := nextTicket;
      var reply := FinalizeCall(id, now);
      done := reply == Some(Done);
      if done {
        Landed(s0, id, now, t);
      }
    }

    /** Its continuation, once its put has been applied. */
    method EndFinalization(t: nat)
      requires Linked() && P.Reachable(View()) && t in View().ops && View().ops[t].Finalizing?
      requires |pending| > 0 && pending[|pending| - 1].ticket == t
      modifies this
      ensures Linked() && P.Reachable(View()) && objects == old(objects)
      ensures P.BoxOf(View()) == old(P.BoxOf(View()))
      ensures activeProposals == old(activeProposals) - {old(View()).ops[t].id}
      ensures slots == Erase(old(slots), old(View()).ops[t].id)
    {
      Flush();
      P.ReachableStep(View(), P.FinalizeResume(t));
      FinalizeResume(t);
    }

    /** finalizeProposal of a cached proposal, run from its call to its end without interleaving. */
    method FinalizeProposal(id: Id, now: int) returns (done: bool)
      requires Linked() && P.Reachable(View()) && id in activeProposals
      modifies this, objects
      ensures Linked() && P.Reachable(View()) && objects == old(objects)
      ensures id in old(P.BoxOf(View())) && (done <==> old(P.BoxOf(View()))[id].status.Active?)
      ensures P.BoxOf(View()) == Step(old(P.BoxOf(View())), Close(id, now))
      ensures done ==> activeProposals == old(activeProposals) - {id} && slots == Erase(old(slots), id)
      ensures !done ==> activeProposals == old(activeProposals) && slots == old(slots)
    {
      var t;
      done, t := BeginFinalization(id, now);
      if done {
        EndFinalization(t);
      }
    }

    /** The body of the sweep for one entry: an error of the finalization is caught and the loop goes on. */
    method Visit(id: Id, now: int)
      requires Linked() && P.Reachable(View()) && id in activeProposals
      modifies this, objects
      ensures Linked() && P.Reachable(View()) && objects == old(objects)
      ensures id in old(P.BoxOf(View()))
      ensures var box, due := old(P.BoxOf(View())), Due(old(P.BoxOf(View()))[id], now);
              && P.BoxOf(View()) == (if due then box[id := Closed(box[id], now)] else box)
              && activeProposals == (if due then old(activeProposals) - {id} else old(activeProposals))
              && slots == (if due then Erase(old(slots), id) else old(slots))
    {
      hide P.Reachable, P.BoxOf;
      ghost var p := activeProposals[id];
      assert View().cache[id] == p.ref && View().heap[p.ref] == p.Snapshot();
      P.ReachableCached(View(), id);
      if now > activeProposals[id].terms.endsAt {
        var done := FinalizeProposal(id, now);
      }
    }

    /** The sweep of a start state has walked over the first `i` slots. */
    ghost predicate SweptTo(i: nat, box: Box, cache: map<Id, Proposal>, slots0: Slots<Id>, now: int)
      reads this, objects
    {
      && Linked() && P.Reachable(View())
      && Lists(slots0, cache.Keys)
      && i <= |slots| == |slots0|
      && (forall j :: i <= j < |slots| ==> slots[j] == slots0[j])
      && P.BoxOf(View()) == Swept(box, Walked(slots0, i), now)
      && activeProposals == Left(cache, box, Walked(slots0, i), now)
    }

    method SweepSlot(i: nat, now: int, ghost box: Box, ghost cache: map<Id, Proposal>, ghost slots0: Slots<Id>)
      requires SweptTo(i, box, cache, slots0, now) && i < |slots|
      modifies this, objects
      ensures SweptTo(i + 1, box, cache, slots0, now) && objects == old(objects) && |slots| == |old(slots)|
    {
      hide P.Reachable, P.BoxOf, Left, Due, Closed;
      if slots[i].None? {
        assert Walked(slots0, i + 1) == Walked(slots0, i);
        return;
      }
      SweptStep(box, cache, slots0, i, now);
      EraseLater(slots, slots0, cache.Keys, i);
      ghost var id, was := slots[i].value, slots;
      Visit(slots[i].value, now);
      assert slots == was || slots == Erase(was, id);
    }

    /**
     `checkProposalsForFinalization`, run without interleaving: it closes every cached proposal that is due,
     skips none although it deletes from the map it walks, and leaves all others as they are.
     */
    method CheckProposalsForFinalization(now: int)
      requires Linked() && P.Reachable(View())
      modifies this, objects
      ensures Linked() && P.Reachable(View())
      ensures P.BoxOf(View()) == Swept(old(P.BoxOf(View())), old(activeProposals.Keys), now)
      ensures activeProposals == Left(old(activeProposals), old(P.BoxOf(View())), old(activeProposals.Keys), now)
    {
      hide SweptTo;
      ghost var box, cache, slots0 := P.BoxOf(View()), activeProposals, slots;
      SweptStart(now);
      var i := 0;
      while i < |slots|
        invariant i <= |slots| && SweptTo(i, box, cache, slots0, now) && objects == old(objects)
      {
        SweepSlot(i, now, box, cache, slots0);
        i := i + 1;
      }
      SweptAll(box, cache, slots0, now);
    }

    lemma SweptStart(now: int)
      requires Linked() && P.Reachable(View())
      ensures SweptTo(0, P.BoxOf(View()), activeProposals, slots, now)
    {
      SweptNone(P.BoxOf(View()), activeProposals, now);
    }

    lemma SweptAll(box: Box, cache: map<Id, Proposal>, slots0: Slots<Id>, now: int)
      requires SweptTo(|slots|, box, cache, slots0, now)
      ensures Linked() && P.Reachable(View())
      ensures P.BoxOf(View()) == Swept(box, cache.Keys, now) && activeProposals == Left(cache, box, cache.Keys, now)
    {
      WalkedAll(slots0, cache.Keys);
    }
  }

  ghost function Refs(cache: map<Id, Proposal>): map<Id, nat> {
    map id | id in cache :: cache[id].ref
  }

  lemma RefsWith(cache: map<Id, Proposal>, id: Id, p: Proposal)
    ensures Refs(cache[id := p]) == Refs(cache)[id := p.ref] && cache[id := p].Keys == cache.Keys + {id}
  {
  }

  lemma RefsWithout(cache: map<Id, Proposal>, id: Id)
    ensures Refs(cache - {id}) == Refs(cache) - {id} && (cache - {id}).Keys == cache.Keys - {id}
  {
  }

  /** The keys in the first `n` slots. */
  ghost function Walked(slots: Slots<Id>, n: nat): set<Id>
    requires n <= |slots|
  {
    set i | 0 <= i < n && slots[i].Some? :: slots[i].value
  }

  /** The cache without the proposals of `ids` that were due. */
  ghost function Left(cache: map<Id, Proposal>, box: Box, ids: set<Id>, now: int): map<Id, Proposal> {
    map id | id in cache && !(id in ids && id in box && Due(box[id], now)) :: cache[id]
  }

  lemma Landed(s0: P.State, id: Id, now: int, t: nat)
    requires P.RefsOk(s0) && id in s0.cache && id !in s0.creating && s0.next == t
    requires P.Next(s0, P.FinalizeCall(id, now)).1 == Some(Done)
    ensures var s := P.Next(s0, P.FinalizeCall(id, now)).0;
            && t in s.ops && s.ops[t] == P.Finalizing(id, s0.cache[id])
            && |s.pending| > 0 && s.pending[|s.pending| - 1].ticket == t
            && s.cache == s0.cache
  {
  }

  /** The proposals that a sweep at `now` has to close. */
  predicate Due(r: Record, now: int) {
    r.status.Active? && now > r.terms.endsAt
  }

  /** The box in which the proposals of `ids` that are due have been closed. */
  ghost function Swept(box: Box, ids: set<Id>, now: int): Box {
    map id | id in box :: if id in ids && Due(box[id], now) then Closed(box[id], now) else box[id]
  }

  /** A sweep closes a walked proposal exactly if it is active and its end has passed, and leaves every other record alone. */
  lemma SweepClosesTheEnded(box: Box, ids: set<Id>, now: int, id: Id)
    requires id in box
    ensures id in Swept(box, ids, now)
    ensures Swept(box, ids, now)[id] == if id in ids && now > box[id].terms.endsAt then Step(box, Close(id, now))[id] else box[id]
    ensures Swept(box, ids, now)[id].status.Active? <==> box[id].status.Active? && (id !in ids || now <= box[id].terms.endsAt)
  {
  }

  /** So it takes no vote away, other than a finalization on request: whoever can vote before it, now or later, can vote after it. */
  lemma SweepTakesNoVote(box: Box, ids: set<Id>, now: int, c: Command)
    requires c.Cast? && c.now >= now
    ensures Answer(Swept(box, ids, now), c).Done? <==> Answer(box, c).Done?
  {
    if c.id in box {
      SweepClosesTheEnded(box, ids, now, c.id);
    }
  }

  /** And exactly the proposals that it closes leave the cache. */
  lemma SweepUncachesTheEnded(cache: map<Id, Proposal>, box: Box, ids: set<Id>, now: int, id: Id)
    requires id in cache && id in box
    ensures id in Left(cache, box, ids, now) <==> !(id in ids && box[id].status.Active? && now > box[id].terms.endsAt)
    ensures id in Left(cache, box, ids, now) ==> Left(cache, box, ids, now)[id] == cache[id]
  {
  }

  lemma SweptNone(box: Box, cache: map<Id, Proposal>, now: int)
    ensures Swept(box, {}, now) == box && Left(cache, box, {}, now) == cache
  {
  }

  lemma WalkedStep(slots: Slots<Id>, keys: set<Id>, i: nat)
    requires Lists(slots, keys) && i < |slots|
    ensures Walked(slots, i + 1) == Walked(slots, i) + if slots[i].Some? then {slots[i].value} else {}
    ensures slots[i].Some? ==> slots[i].value in keys && slots[i].value !in Walked(slots, i)
  {
  }

  lemma EraseLater(slots: Slots<Id>, slots0: Slots<Id>, keys: set<Id>, i: nat)
    requires Lists(slots0, keys) && i < |slots| == |slots0| && slots0[i].Some?
    requires forall j :: i <= j < |slots| ==> slots[j] == slots0[j]
    ensures forall j :: i < j < |slots| ==> Erase(slots, slots0[i].value)[j] == slots0[j]
  {
  }

  lemma WalkedAll(slots: Slots<Id>, keys: set<Id>)
    requires Lists(slots, keys)
    ensures Walked(slots, |slots|) == keys
  {
    forall k | k in keys ensures k in Walked(slots, |slots|) {
      var i :| 0 <= i < |slots| && slots[i] == Some(k);
    }
  }

  /** Walking over one more entry: it is still as it was at the start, and closing it if it is due is all that is left to do. */
  lemma SweptStep(box: Box, cache: map<Id, Proposal>, slots: Slots<Id>, i: nat, now: int)
    requires Lists(slots, cache.Keys) && i < |slots| && slots[i].Some?
    ensures var id, done, more := slots[i].value, Walked(slots, i), Walked(slots, i + 1);
            var due := id in box && Due(box[id], now);
            && id in Left(cache, box, done, now)
            && (id in box ==> id in Swept(box, done, now) && Swept(box, done, now)[id] == box[id])
            && Swept(box, more, now) == (if due then Swept(box, done, now)[id := Closed(box[id], now)] else Swept(box, done, now))
            && Left(cache, box, more, now) == (if due then Left(cache, box, done, now) - {id} else Left(cache, box, done, now))
  {
    WalkedStep(slots, cache.Keys, i);
    SweptMore(box, Walked(slots, i), slots[i].value, now);
    LeftMore(box, cache, Walked(slots, i), slots[i].value, now);
  }

  lemma SweptMore(box: Box, ids: set<Id>, id: Id, now: int)
    requires id !in ids
    ensures id in box ==> id in Swept(box, ids, now) && Swept(box, ids, now)[id] == box[id]
    ensures Swept(box, ids + {id}, now) ==
            if id in box && Due(box[id], now) then Swept(box, ids, now)[id := Closed(box[id], now)] else Swept(box, ids, now)
  {
  }

  lemma LeftMore(box: Box, cache: map<Id, Proposal>, ids: set<Id>, id: Id, now: int)
    requires id !in ids && id in cache
    ensures id in Left(cache, box, ids, now)
    ensures Left(cache, box, ids + {id}, now) ==
            if id in box && Due(box[id], now) then Left(cache, box, ids, now) - {id} else Left(cache, box, ids, now)
  {
  }
}
