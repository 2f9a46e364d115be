/**
 The governance system as a transition system: a cache of shared proposal objects in front of a
 key-value store. Every operation is cut at its awaits into atomic steps, which interleave freely.
 An object in memory is a position in `heap`; the cache and suspended operations share objects by position.
 */
module VotingProtocol {
  import opened Basics
  import opened JsObject
  import opened Tally
  import opened BallotBox

  /** A put that has been issued and not yet applied; the ticket names the operation awaiting it. */
  datatype Put = Put(ticket: nat, id: Id, record: Record)

  datatype Fetch = Waiting | Arrived(record: Option<Record>)

  /** An operation suspended at an await, with the local variables it will need again. */
  datatype Op =
    | Creating(id: Id, ref: nat)
    | Voting(id: Id, ref: nat)
    | Finalizing(id: Id, ref: nat)
    | VoteRead(id: Id, fetch: Fetch, voter: Key, option: Key, weight: real)
    | FinalizeRead(id: Id, fetch: Fetch)

  datatype State = State(
    heap: seq<Record>,        // every proposal object made so far
    cache: map<Id, nat>,      // activeProposals
    store: Box,
    pending: seq<Put>,        // in the order of issue
    acked: set<nat>,          // tickets whose put has been applied
    ops: map<nat, Op>,
    next: nat,                // the next ticket
    creating: map<Id, nat>)   // ids whose createProposal has not returned, with its ticket

  datatype Event =
    | CreateCall(id: Id, terms: Terms)
    | CreateResume(t: nat)
    | VoteCall(id: Id, voter: Key, option: Key, weight: real, now: int)
    | VoteReadResume(t: nat, now: int)
    | VoteResume(t: nat)
    | FinalizeCall(id: Id, now: int)
    | FinalizeReadResume(t: nat, now: int)
    | FinalizeResume(t: nat)
    | ServeGet(t: nat)
    | ApplyPut

  /** Every reference held anywhere is to an object that exists. */
  predicate RefsOk(s: State) {
    && (forall id :: id in s.cache ==> s.cache[id] < |s.heap|)
    && (forall t :: t in s.ops && (s.ops[t].Creating? || s.ops[t].Voting? || s.ops[t].Finalizing?) ==>
          s.ops[t].ref < |s.heap|)
  }

  /** Start-up: the store is loaded and exactly its active proposals are cached. */
  ghost predicate Initial(s: State, disk: Box) {
    && AllGood(disk)
    && s.store == disk && s.pending == [] && s.acked == {} && s.ops == map[] && s.creating == map[]
    && (forall id :: id in s.cache <==> id in disk && disk[id].status.Active?)
    && (forall id :: id in s.cache ==> s.cache[id] < |s.heap| && s.heap[s.cache[id]] == disk[id])
    && (forall a, b :: a in s.cache && b in s.cache && a != b ==> s.cache[a] != s.cache[b])
  }

  /** The assumption on a newly generated proposal id. */
  predicate Fresh(s: State, id: Id) {
    && id !in s.cache && id !in s.creating && id !in s.store
    && (forall i :: 0 <= i < |s.pending| ==> s.pending[i].id != id)
    && (forall t :: t in s.ops ==> s.ops[t].id != id)
  }

  /** A proposal id is used only after createProposal has returned it; a suspended step goes on only when its await is over. */
  predicate Enabled(s: State, e: Event) {
    match e
    case CreateCall(id, terms) => Fresh(s, id)
    case CreateResume(t) => t in s.ops && s.ops[t].Creating? && t in s.acked
    case VoteCall(id, _, _, _, _) => id !in s.creating
    case VoteReadResume(t, _) => t in s.ops && s.ops[t].VoteRead? && s.ops[t].fetch.Arrived?
    case VoteResume(t) => t in s.ops && s.ops[t].Voting? && t in s.acked
    case FinalizeCall(id, _) => id !in s.creating
    case FinalizeReadResume(t, _) => t in s.ops && s.ops[t].FinalizeRead? && s.ops[t].fetch.Arrived?
    case FinalizeResume(t) => t in s.ops && s.ops[t].Finalizing? && t in s.acked
    case ServeGet(t) => t in s.ops && (s.ops[t].VoteRead? || s.ops[t].FinalizeRead?) && s.ops[t].fetch.Waiting?
    case ApplyPut => s.pending != []
  }

  /** The object `ref`, just changed to `r`, is written to the store and the operation is suspended. */
  function Write(s: State, ref: nat, id: Id, r: Record, op: Op): State
    requires ref < |s.heap|
  {
    s.(heap := s.heap[ref := r], pending := s.pending + [Put(s.next, id, r)],
       ops := s.ops[s.next := op], next := s.next + 1)
  }

  /** castVote from the status check to the put: no await in between. */
  function RecordVote(s: State, ref: nat, id: Id, voter: Key, option: Key, weight: real, now: int): (State, Reply)
    requires ref < |s.heap|
  {
    var reply := VoteReply(s.heap[ref], voter, option, now);
    if reply.Done?
    then (Write(s, ref, id, Voted(s.heap[ref], voter, option, weight, now), Voting(id, ref)), Done)
    else (s, reply)
  }

  /** finalizeProposal from the status check to the put. */
  function CloseProposal(s: State, ref: nat, id: Id, now: int): (State, Reply)
    requires ref < |s.heap|
  {
    if s.heap[ref].status.Active?
    then (Write(s, ref, id, Closed(s.heap[ref], now), Finalizing(id, ref)), Done)
    else (s, NotActive)
  }

  function Suspend(s: State, op: Op): State {
    s.(ops := s.ops[s.next := op], next := s.next + 1)
  }

  function Finish(s: State, t: nat): State {
    s.(ops := s.ops - {t})
  }

  /** One step, and the reply it gives to its caller, if the answer is settled by it. */
  function Next(s: State, e: Event): (State, Option<Reply>)
    requires RefsOk(s) && Enabled(s, e)
  {
    match e
    case CreateCall(id, terms) =>
      var s1 := s.(heap := s.heap + [Opened(terms)], creating := s.creating[id := s.next]);
      (Write(s1, |s.heap|, id, Opened(terms), Creating(id, |s.heap|)), Some(Done))
    case CreateResume(t) =>
      var op := s.ops[t];
      (Finish(s, t).(cache := s.cache[op.id := op.ref], creating := s.creating - {op.id}), None)
    case VoteCall(id, voter, option, weight, now) =>
      if id in s.cache then
        var (s1, reply) := RecordVote(s, s.cache[id], id, voter, option, weight, now);
        (s1, Some(reply))
      else (Suspend(s, VoteRead(id, Waiting, voter, option, weight)), None)
    case VoteReadResume(t, now) =>
      var op := s.ops[t];
      var s0 := Finish(s, t);
      if op.fetch.record == None then (s0, Some(NotFound))
      else
        var (s1, reply) := RecordVote(s0.(heap := s.heap + [op.fetch.record.value]), |s.heap|,
                                      op.id, op.voter, op.option, op.weight, now);
        (s1, Some(reply))
    case VoteResume(t) =>
      var op := s.ops[t];
      (if op.id in s.cache then Finish(s, t).(cache := s.cache[op.id := op.ref]) else Finish(s, t), None)
    case FinalizeCall(id, now) =>
      if id in s.cache then
        var (s1, reply) := CloseProposal(s, s.cache[id], id, now);
        (s1, Some(reply))
      else (Suspend(s, FinalizeRead(id, Waiting)), None)
    case FinalizeReadResume(t, now) =>
      var op := s.ops[t];
      var s0 := Finish(s, t);
      if op.fetch.record == None then (s0, Some(NotFound))
      else
        var (s1, reply) := CloseProposal(s0.(heap := s.heap + [op.fetch.record.value]), |s.heap|, op.id, now);
        (s1, Some(reply))
    case FinalizeResume(t) =>
      (Finish(s, t).(cache := s.cache - {s.ops[t].id}), None)
    case ServeGet(t) =>
      var op := s.ops[t];
      (s.(ops := s.ops[t := op.(fetch := Arrived(if op.id in s.store then Some(s.store[op.id]) else None))]), None)
    case ApplyPut =>
      var p := s.pending[0];
      (s.(store := s.store[p.id := p.record], pending := s.pending[1..], acked := s.acked + {p.ticket}), None)
  }

  /** The command of the atomic ballot box that a step carries out; None for a step that leaves the box alone. */
  function CommandOf(s: State, e: Event): Option<Command>
    requires Enabled(s, e)
  {
    match e
    case CreateCall(id, terms) => Some(Create(id, terms))
    case VoteCall(id, voter, option, weight, now) =>
      if id in s.cache then Some(Cast(id, voter, option, weight, now)) else None
    case VoteReadResume(t, now) =>
      var op := s.ops[t];
      Some(Cast(op.id, op.voter, op.option, op.weight, now))
    case FinalizeCall(id, now) => if id in s.cache then Some(Close(id, now)) else None
    case FinalizeReadResume(t, now) => Some(Close(s.ops[t].id, now))
    case _ => None
  }

  // ---------- the abstract state ----------

  /** The store after the pending puts have been applied in the order of issue. */
  function Drain(store: Box, pending: seq<Put>): Box
    decreases |pending|
  {
    if pending == [] then store else Drain(store[pending[0].id := pending[0].record], pending[1..])
  }

  function BoxOf(s: State): Box {
    Drain(s.store, s.pending)
  }

  lemma {:induction false} DrainAppend(store: Box, pending: seq<Put>, p: Put)
    ensures Drain(store, pending + [p]) == Drain(store, pending)[p.id := p.record]
    decreases |pending|
  {
    if pending == [] {
      assert [p][1..] == [];
    } else {
      assert (pending + [p])[1..] == pending[1..] + [p];
      DrainAppend(store[pending[0].id := pending[0].record], pending[1..], p);
    }
  }

  lemma {:induction false} DrainOther(store: Box, pending: seq<Put>, id: Id)
    requires forall i :: 0 <= i < |pending| ==> pending[i].id != id
    ensures id in Drain(store, pending) <==> id in store
    ensures id in store ==> Drain(store, pending)[id] == store[id]
    decreases |pending|
  {
    if pending != [] {
      DrainOther(store[pending[0].id := pending[0].record], pending[1..], id);
    }
  }

  // ---------- the invariant ----------

  /** Tickets grow, and puts are applied in the order of issue. */
  ghost predicate QueueOk(s: State) {
    && (forall t :: t in s.acked || t in s.ops ==> t < s.next)
    && (forall i :: 0 <= i < |s.pending| ==> s.pending[i].ticket < s.next)
    && (forall i, j :: 0 <= i < j < |s.pending| ==> s.pending[i].ticket < s.pending[j].ticket)
    && (forall t, i :: t in s.acked && 0 <= i < |s.pending| ==> t < s.pending[i].ticket)
  }

  /** Whatever is or will be in the store is good, and nothing active is missing from the cache. */
  ghost predicate BoxOk(s: State, box: Box) {
    && AllGood(s.store)
    && AllGood(box)
    && (forall i :: 0 <= i < |s.pending| ==> Good(s.pending[i].record))
    && (forall id :: id in box && box[id].status.Active? ==> id in s.cache || id in s.creating)
    && (forall i :: 0 <= i < |s.pending| ==> s.pending[i].id in s.cache || s.pending[i].id in s.creating)
  }

  /** A cached object is, at every moment, exactly what the drained store holds; no two ids share an object. */
  ghost predicate CacheOk(s: State, box: Box) {
    && (forall id :: id in s.cache ==> id !in s.creating && s.cache[id] < |s.heap|)
    && (forall id :: id in s.cache ==> id in box && box[id] == s.heap[s.cache[id]])
    && (forall a, b :: a in s.cache && b in s.cache && a != b ==> s.cache[a] != s.cache[b])
  }

  /** A store read happens only for a proposal that is closed, or not there at all. */
  ghost predicate ReadOk(s: State, box: Box, id: Id, fetch: Fetch) {
    && id !in s.creating && id !in s.cache
    && (fetch.Arrived? ==> fetch.record == if id in box then Some(box[id]) else None)
  }

  /** What a suspended operation will find when it goes on. */
  ghost predicate OpOk(s: State, box: Box, t: nat) {
    t in s.ops &&
    match s.ops[t]
    case Creating(id, ref) =>
      && ref < |s.heap| && s.heap[ref].status.Active?
      && id in s.creating && s.creating[id] == t
      && id in box && box[id] == s.heap[ref]
      && (forall x :: x in s.cache ==> s.cache[x] != ref)
    case Voting(id, ref) =>
      && ref < |s.heap| && id !in s.creating && (id in s.cache ==> s.cache[id] == ref)
    case Finalizing(id, ref) =>
      && ref < |s.heap| && id !in s.creating && (id in s.cache ==> s.cache[id] == ref)
      && s.heap[ref].status.Finalized?
      && (forall i :: 0 <= i < |s.pending| && s.pending[i].id == id ==> s.pending[i].ticket <= t)
    case VoteRead(id, fetch, _, _, _) => ReadOk(s, box, id, fetch)
    case FinalizeRead(id, fetch) => ReadOk(s, box, id, fetch)
  }

  ghost predicate OpsOk(s: State, box: Box) {
    && (forall t :: t in s.ops ==> OpOk(s, box, t))
    && (forall a, b :: a in s.ops && b in s.ops && s.ops[a].Creating? && s.ops[b].Creating? && a != b ==>
          s.ops[a].ref != s.ops[b].ref)
    && (forall id :: id in s.creating ==>
          s.creating[id] in s.ops && s.ops[s.creating[id]].Creating? && s.ops[s.creating[id]].id == id)
  }

  ghost predicate InvWith(s: State, box: Box) {
    QueueOk(s) && BoxOk(s, box) && CacheOk(s, box) && OpsOk(s, box)
  }

  /** The invariant: all this against the drained store. */
  ghost predicate Inv(s: State) {
    InvWith(s, BoxOf(s))
  }

  lemma InitialInv(s: State, disk: Box)
    requires Initial(s, disk)
    ensures Inv(s) && BoxOf(s) == disk
  {
  }

  // ---------- each step keeps the invariant and refines the ballot box ----------

  /** The write of a cached, still active object `ref` of `id`, by a vote or by the finalization. */
  ghost predicate WriteOk(s: State, id: Id, r: Record, op: Op) {
    && id in s.cache && s.cache[id] < |s.heap| && s.heap[s.cache[id]].status.Active?
    && (op == Voting(id, s.cache[id]) || (op == Finalizing(id, s.cache[id]) && r.status.Finalized?))
  }

  lemma WriteOps(s: State, id: Id, r: Record, op: Op, box: Box, t: nat)
    requires CacheOk(s, box) && WriteOk(s, id, r, op) && t in s.ops && t != s.next && OpOk(s, box, t)
    ensures OpOk(Write(s, s.cache[id], id, r, op), box[id := r], t)
  {
  }

  lemma WriteLastOp(s: State, id: Id, r: Record, op: Op, box: Box)
    requires QueueOk(s) && CacheOk(s, box) && WriteOk(s, id, r, op)
    ensures OpOk(Write(s, s.cache[id], id, r, op), box[id := r], s.next)
  {
  }

  lemma WriteBox(s: State, id: Id, r: Record, op: Op, box: Box)
    requires BoxOk(s, box) && CacheOk(s, box) && WriteOk(s, id, r, op) && Good(r)
    ensures BoxOk(Write(s, s.cache[id], id, r, op), box[id := r])
  {
  }

  lemma WriteCache(s: State, id: Id, r: Record, op: Op, box: Box)
    requires CacheOk(s, box) && WriteOk(s, id, r, op)
    ensures CacheOk(Write(s, s.cache[id], id, r, op), box[id := r])
  {
  }

  lemma WriteQueue(s: State, ref: nat, id: Id, r: Record, op: Op)
    requires QueueOk(s) && ref < |s.heap|
    ensures QueueOk(Write(s, ref, id, r, op))
  {
  }

  lemma WriteAllOps(s: State, id: Id, r: Record, op: Op, box: Box)
    requires QueueOk(s) && CacheOk(s, box) && OpsOk(s, box) && WriteOk(s, id, r, op)
    ensures OpsOk(Write(s, s.cache[id], id, r, op), box[id := r])
  {
    var s1 := Write(s, s.cache[id], id, r, op);
    forall t | t in s1.ops ensures OpOk(s1, box[id := r], t) {
      if t == s.next { WriteLastOp(s, id, r, op, box); } else { WriteOps(s, id, r, op, box, t); }
    }
  }

  lemma ForgetOps(s: State, t: nat, more: seq<Record>, box: Box)
    requires CacheOk(s, box) && OpsOk(s, box) && t in s.ops && !s.ops[t].Creating?
    ensures OpsOk(Finish(s, t).(heap := s.heap + more), box)
  {
    var s1 := Finish(s, t).(heap := s.heap + more);
    forall u | u in s1.ops ensures OpOk(s1, box, u) {
      assert OpOk(s, box, u);
    }
  }

  lemma VoteCallIs(s: State, box: Box, id: Id, voter: Key, option: Key, weight: real, now: int)
    requires RefsOk(s) && id in s.cache && id !in s.creating && id in box && box[id] == s.heap[s.cache[id]]
    ensures var e, r := VoteCall(id, voter, option, weight, now), box[id];
            && CommandOf(s, e) == Some(Cast(id, voter, option, weight, now))
            && Next(s, e).1 == Some(Answer(box, CommandOf(s, e).value))
            && (if Answer(box, CommandOf(s, e).value).Done? then
                  var v := Voted(r, voter, option, weight, now);
                  && Next(s, e).0 == Write(s, s.cache[id], id, v, Voting(id, s.cache[id]))
                  && Step(box, CommandOf(s, e).value) == box[id := v]
                else Next(s, e).0 == s && Step(box, CommandOf(s, e).value) == box)
  {
  }

  lemma CloseCallIs(s: State, box: Box, id: Id, now: int)
    requires RefsOk(s) && id in s.cache && id !in s.creating && id in box && box[id] == s.heap[s.cache[id]]
    ensures var e, r := FinalizeCall(id, now), box[id];
            && CommandOf(s, e) == Some(Close(id, now))
            && Next(s, e).1 == Some(Answer(box, CommandOf(s, e).value))
            && (if r.status.Active? then
                  && Next(s, e).0 == Write(s, s.cache[id], id, Closed(r, now), Finalizing(id, s.cache[id]))
                  && Step(box, CommandOf(s, e).value) == box[id := Closed(r, now)]
                else Next(s, e).0 == s && Step(box, CommandOf(s, e).value) == box)
  {
  }

  lemma SuspendOps(s: State, op: Op, box: Box)
    requires QueueOk(s) && OpsOk(s, box) && op.id !in s.cache && op.id !in s.creating
    requires (op.VoteRead? || op.FinalizeRead?) && op.fetch == Waiting
    ensures OpsOk(Suspend(s, op), box)
  {
    var s1 := Suspend(s, op);
    forall t | t in s1.ops ensures OpOk(s1, box, t) {
      if t != s.next { assert OpOk(s, box, t); }
    }
  }

  /** An operation that had to read the store and finds a closed proposal, or none, changes nothing. */
  lemma ReadResumeIs(s: State, e: Event, box: Box)
    requires RefsOk(s) && Enabled(s, e) && (e.VoteReadResume? || e.FinalizeReadResume?)
    requires var op := s.ops[e.t];
             && op.fetch.record == (if op.id in box then Some(box[op.id]) else None)
             && (op.fetch.record.Some? ==> op.fetch.record.value.status.Finalized?)
    ensures var read := s.ops[e.t].fetch.record;
            && Next(s, e).0 == Finish(s, e.t).(heap := s.heap + if read.Some? then [read.value] else [])
            && Next(s, e).1 == Some(if read.Some? then NotActive else NotFound)
            && CommandOf(s, e).Some? && Step(box, CommandOf(s, e).value) == box
            && Next(s, e).1 == Some(Answer(box, CommandOf(s, e).value))
  {
    assert s.heap + [] == s.heap;
  }

  lemma ServeGetOps(s: State, t: nat, box: Box)
    requires OpsOk(s, box) && BoxOk(s, box) && Enabled(s, ServeGet(t)) && RefsOk(s)
    requires s.ops[t].id in box <==> s.ops[t].id in s.store
    requires s.ops[t].id in s.store ==> box[s.ops[t].id] == s.store[s.ops[t].id]
    ensures OpsOk(Next(s, ServeGet(t)).0, box)
  {
    var s1 := Next(s, ServeGet(t)).0;
    assert OpOk(s, box, t);
    assert OpOk(s1, box, t);
    forall u | u in s1.ops && u != t ensures OpOk(s1, box, u) {
      ServeGetOp(s, t, box, u);
    }
  }

  lemma ServeGetOp(s: State, t: nat, box: Box, u: nat)
    requires OpOk(s, box, u) && u != t && Enabled(s, ServeGet(t)) && RefsOk(s)
    ensures OpOk(Next(s, ServeGet(t)).0, box, u)
  {
  }

  lemma ServeGetRest(s: State, t: nat, box: Box)
    requires QueueOk(s) && BoxOk(s, box) && CacheOk(s, box) && RefsOk(s) && Enabled(s, ServeGet(t))
    ensures QueueOk(Next(s, ServeGet(t)).0) && BoxOk(Next(s, ServeGet(t)).0, box) && CacheOk(Next(s, ServeGet(t)).0, box)
  {
  }

  lemma ApplyPutQueue(s: State, box: Box)
    requires QueueOk(s) && BoxOk(s, box) && RefsOk(s) && s.pending != []
    ensures QueueOk(Next(s, ApplyPut).0) && BoxOk(Next(s, ApplyPut).0, box)
  {
  }

  lemma ApplyPutOps(s: State, box: Box)
    requires OpsOk(s, box) && RefsOk(s) && s.pending != []
    ensures OpsOk(Next(s, ApplyPut).0, box)
  {
    var s1 := Next(s, ApplyPut).0;
    forall t | t in s1.ops ensures OpOk(s1, box, t) {
      assert OpOk(s, box, t);
    }
  }

  lemma UncacheOps(s: State, id: Id, box: Box)
    requires OpsOk(s, box)
    ensures OpsOk(s.(cache := s.cache - {id}), box)
  {
    var s1 := s.(cache := s.cache - {id});
    forall t | t in s1.ops ensures OpOk(s1, box, t) {
      assert OpOk(s, box, t);
    }
  }

  lemma CreateResumeBox(s: State, t: nat, box: Box)
    requires BoxOk(s, box) && CacheOk(s, box) && RefsOk(s) && Enabled(s, CreateResume(t)) && OpOk(s, box, t)
    ensures BoxOk(Next(s, CreateResume(t)).0, box) && CacheOk(Next(s, CreateResume(t)).0, box)
  {
  }

  lemma CreateResumeOps(s: State, t: nat, box: Box)
    requires CacheOk(s, box) && OpsOk(s, box) && RefsOk(s) && Enabled(s, CreateResume(t))
    ensures OpsOk(Next(s, CreateResume(t)).0, box)
  {
    var s1 := Next(s, CreateResume(t)).0;
    assert OpOk(s, box, t);
    forall u | u in s1.ops ensures OpOk(s1, box, u) {
      assert OpOk(s, box, u);
    }
    forall id | id in s1.creating
      ensures s1.creating[id] in s1.ops && s1.ops[s1.creating[id]].Creating? && s1.ops[s1.creating[id]].id == id
    {
      assert s.creating[id] != t;
    }
  }

  lemma CreateCallQueue(s: State, id: Id, terms: Terms)
    requires QueueOk(s) && RefsOk(s) && Fresh(s, id)
    ensures QueueOk(Next(s, CreateCall(id, terms)).0)
  {
  }

  lemma CreateCallBox(s: State, id: Id, terms: Terms, box: Box)
    requires BoxOk(s, box) && CacheOk(s, box) && RefsOk(s) && Fresh(s, id) && id !in box
    ensures BoxOk(Next(s, CreateCall(id, terms)).0, box[id := Opened(terms)])
  {
  }

  lemma CreateCallCache(s: State, id: Id, terms: Terms, box: Box)
    requires CacheOk(s, box) && RefsOk(s) && Fresh(s, id)
    ensures CacheOk(Next(s, CreateCall(id, terms)).0, box[id := Opened(terms)])
  {
  }

  lemma CreateCallOp(s: State, id: Id, terms: Terms, box: Box, t: nat)
    requires CacheOk(s, box) && RefsOk(s) && Fresh(s, id) && t in s.ops && t < s.next && OpOk(s, box, t)
    ensures OpOk(Next(s, CreateCall(id, terms)).0, box[id := Opened(terms)], t)
  {
    assert s.ops[t].id != id;
  }

  lemma CreateCallLastOp(s: State, id: Id, terms: Terms, box: Box)
    requires CacheOk(s, box) && RefsOk(s) && Fresh(s, id)
    ensures OpOk(Next(s, CreateCall(id, terms)).0, box[id := Opened(terms)], s.next)
  {
  }

  lemma CreateCallOps(s: State, id: Id, terms: Terms, box: Box)
    requires QueueOk(s) && CacheOk(s, box) && OpsOk(s, box) && RefsOk(s) && Fresh(s, id) && id !in box
    ensures OpsOk(Next(s, CreateCall(id, terms)).0, box[id := Opened(terms)])
  {
    var s1, box1 := Next(s, CreateCall(id, terms)).0, box[id := Opened(terms)];
    forall t | t in s1.ops ensures OpOk(s1, box1, t) {
      if t == s.next { CreateCallLastOp(s, id, terms, box); } else { CreateCallOp(s, id, terms, box, t); }
    }
    forall a | a in s.ops && s.ops[a].Creating? ensures s.ops[a].ref < |s.heap| {
      assert OpOk(s, box, a);
    }
  }

  ghost function After(box: Box, c: Option<Command>): Box {
    if c.Some? then Step(box, c.value) else box
  }

  ghost predicate Agrees(s: State, box: Box, id: Id) {
    (id in box <==> id in s.store) && (id in s.store ==> box[id] == s.store[id])
  }

  /** What a step has to read or may choose is in accord with the box. */
  ghost predicate Fits(s: State, e: Event, box: Box)
    requires Enabled(s, e)
  {
    && (e.ServeGet? ==> Agrees(s, box, s.ops[e.t].id))
    && (e.CreateCall? ==> e.id !in box)
  }

  /** The step is the command on `box`, and on `id` it is accepted exactly if it issues a put. */
  ghost predicate Follows(s: State, e: Event, box: Box)
    requires RefsOk(s) && Enabled(s, e)
  {
    var (s1, reply), c := Next(s, e), CommandOf(s, e);
    && InvWith(s1, After(box, c))
    && (c.Some? ==> reply == Some(Answer(box, c.value)))
    && (exists q :: Issued(s, e, q, box)) == (c.Some? && reply == Some(Done))
    && (!(c.Some? && reply == Some(Done)) ==> After(box, c) == box)
  }

  ghost predicate Issued(s: State, e: Event, q: Put, box: Box)
    requires RefsOk(s) && Enabled(s, e)
  {
    var s1, c := Next(s, e).0, CommandOf(s, e);
    && s1.store == s.store && s1.acked == s.acked && s1.pending == s.pending + [q]
    && c.Some? && c.value.id == q.id && After(box, c) == box[q.id := q.record]
  }

  lemma WriteWith(s: State, e: Event, box: Box, id: Id, r: Record, op: Op)
    requires InvWith(s, box) && RefsOk(s) && Enabled(s, e) && WriteOk(s, id, r, op) && Good(r)
    requires Next(s, e) == (Write(s, s.cache[id], id, r, op), Some(Done))
    requires CommandOf(s, e).Some? && CommandOf(s, e).value.id == id && Step(box, CommandOf(s, e).value) == box[id := r]
    requires Answer(box, CommandOf(s, e).value) == Done
    ensures Follows(s, e, box)
  {
    WriteQueue(s, s.cache[id], id, r, op);
    WriteBox(s, id, r, op, box);
    WriteCache(s, id, r, op, box);
    WriteAllOps(s, id, r, op, box);
    assert Issued(s, e, Put(s.next, id, r), box);
  }

  lemma VoteCallWith(s: State, e: Event, box: Box)
    requires InvWith(s, box) && RefsOk(s) && Enabled(s, e) && e.VoteCall? && e.id in s.cache
    ensures Follows(s, e, box)
  {
    VoteCallIs(s, box, e.id, e.voter, e.option, e.weight, e.now);
    var r := box[e.id];
    if VoteReply(r, e.voter, e.option, e.now).Done? {
      VotedIsGood(r, e.voter, e.option, e.weight, e.now);
      WriteWith(s, e, box, e.id, Voted(r, e.voter, e.option, e.weight, e.now), Voting(e.id, s.cache[e.id]));
    } else {
      NothingIssued(s, e, box);
    }
  }

  lemma FinalizeCallWith(s: State, e: Event, box: Box)
    requires InvWith(s, box) && RefsOk(s) && Enabled(s, e) && e.FinalizeCall? && e.id in s.cache
    ensures Follows(s, e, box)
  {
    CloseCallIs(s, box, e.id, e.now);
    var r := box[e.id];
    if r.status.Active? {
      ClosedIsGood(r, e.now);
      WriteWith(s, e, box, e.id, Closed(r, e.now), Finalizing(e.id, s.cache[e.id]));
    } else {
      NothingIssued(s, e, box);
    }
  }

  /** A step after which no more puts are pending than before has issued none. */
  lemma NothingIssued(s: State, e: Event, box: Box)
    requires RefsOk(s) && Enabled(s, e) && |Next(s, e).0.pending| <= |s.pending|
    ensures forall q :: !Issued(s, e, q, box)
  {
  }

  lemma SuspendWith(s: State, e: Event, box: Box)
    requires InvWith(s, box) && RefsOk(s) && Enabled(s, e) && (e.VoteCall? || e.FinalizeCall?) && e.id !in s.cache
    ensures Follows(s, e, box)
  {
    var op := if e.VoteCall? then VoteRead(e.id, Waiting, e.voter, e.option, e.weight) else FinalizeRead(e.id, Waiting);
    var s1 := Suspend(s, op);
    SuspendOps(s, op, box);
    assert QueueOk(s1) && BoxOk(s1, box) && CacheOk(s1, box);
    NothingIssued(s, e, box);
  }

  lemma ReadFindsClosedWith(s: State, t: nat, box: Box)
    requires OpsOk(s, box) && BoxOk(s, box) && t in s.ops && (s.ops[t].VoteRead? || s.ops[t].FinalizeRead?) && s.ops[t].fetch.Arrived?
    ensures var op := s.ops[t];
            && op.fetch.record == (if op.id in box then Some(box[op.id]) else None)
            && (op.fetch.record.Some? ==> op.fetch.record.value.status.Finalized?)
  {
    assert OpOk(s, box, t);
  }

  lemma ForgetWith(s: State, t: nat, more: seq<Record>, box: Box)
    requires InvWith(s, box) && t in s.ops && !s.ops[t].Creating?
    ensures InvWith(Finish(s, t).(heap := s.heap + more), box)
  {
    var s1 := Finish(s, t).(heap := s.heap + more);
    ForgetOps(s, t, more, box);
    assert QueueOk(s1) && BoxOk(s1, box) && CacheOk(s1, box);
  }

  lemma ReadResumeWith(s: State, e: Event, box: Box)
    requires InvWith(s, box) && RefsOk(s) && Enabled(s, e) && (e.VoteReadResume? || e.FinalizeReadResume?)
    ensures Follows(s, e, box)
  {
    ReadFindsClosedWith(s, e.t, box);
    ReadResumeIs(s, e, box);
    ForgetWith(s, e.t, if s.ops[e.t].fetch.record.Some? then [s.ops[e.t].fetch.record.value] else [], box);
    NothingIssued(s, e, box);
  }

  lemma VoteResumeWith(s: State, e: Event, box: Box)
    requires InvWith(s, box) && RefsOk(s) && Enabled(s, e) && e.VoteResume?
    ensures Follows(s, e, box) && Next(s, e).0 == Finish(s, e.t)
  {
    hide InvWith;
    VoterHoldsCached(s, e.t, box);
    ForgetWith(s, e.t, [], box);
    assert s.heap + [] == s.heap;
    NothingIssued(s, e, box);
  }

  /** The object that a suspended vote holds is the one that is cached, if any is. */
  lemma VoterHoldsCached(s: State, t: nat, box: Box)
    requires InvWith(s, box) && t in s.ops && s.ops[t].Voting?
    ensures s.ops[t].id in s.cache ==> s.cache[s.ops[t].id := s.ops[t].ref] == s.cache
  {
    assert OpOk(s, box, t);
  }

  lemma FinalizeResumeWith(s: State, e: Event, box: Box)
    requires InvWith(s, box) && RefsOk(s) && Enabled(s, e) && e.FinalizeResume?
    ensures Follows(s, e, box)
  {
    hide InvWith;
    FinalizedIsSettled(s, e.t, box);
    ForgetWith(s, e.t, [], box);
    assert s.heap + [] == s.heap;
    UncacheWith(Finish(s, e.t), s.ops[e.t].id, box);
    NothingIssued(s, e, box);
  }

  /** When a finalization goes on, no put of its proposal is pending, and what is cached is closed. */
  lemma FinalizedIsSettled(s: State, t: nat, box: Box)
    requires InvWith(s, box) && t in s.ops && s.ops[t].Finalizing? && t in s.acked
    ensures forall i :: 0 <= i < |s.pending| ==> s.pending[i].id != s.ops[t].id
    ensures s.ops[t].id in s.cache ==> s.ops[t].id in box && !box[s.ops[t].id].status.Active?
  {
    assert OpOk(s, box, t);
  }

  lemma UncacheWith(s: State, id: Id, box: Box)
    requires InvWith(s, box) && (forall i :: 0 <= i < |s.pending| ==> s.pending[i].id != id)
    requires id in s.cache ==> id in box && !box[id].status.Active?
    ensures InvWith(s.(cache := s.cache - {id}), box)
  {
    UncacheBox(s, id, box);
    UncacheOps(s, id, box);
  }

  lemma UncacheBox(s: State, id: Id, box: Box)
    requires QueueOk(s) && BoxOk(s, box) && CacheOk(s, box) && forall i :: 0 <= i < |s.pending| ==> s.pending[i].id != id
    requires id in s.cache ==> id in box && !box[id].status.Active?
    ensures var s1 := s.(cache := s.cache - {id}); QueueOk(s1) && BoxOk(s1, box) && CacheOk(s1, box)
  {
  }

  lemma CreateResumeWith(s: State, e: Event, box: Box)
    requires InvWith(s, box) && RefsOk(s) && Enabled(s, e) && e.CreateResume?
    ensures Follows(s, e, box)
  {
    assert OpOk(s, box, e.t);
    assert QueueOk(Next(s, e).0);
    CreateResumeBox(s, e.t, box);
    CreateResumeOps(s, e.t, box);
    NothingIssued(s, e, box);
  }

  lemma CreateCallWith(s: State, e: Event, box: Box)
    requires InvWith(s, box) && RefsOk(s) && Enabled(s, e) && e.CreateCall? && e.id !in box
    ensures Follows(s, e, box)
  {
    hide InvWith, Fresh;
    CreateCallInv(s, e, box);
    assert Issued(s, e, Put(s.next, e.id, Opened(e.terms)), box);
  }

  lemma CreateCallInv(s: State, e: Event, box: Box)
    requires InvWith(s, box) && RefsOk(s) && Enabled(s, e) && e.CreateCall? && e.id !in box
    ensures InvWith(Next(s, e).0, box[e.id := Opened(e.terms)])
  {
    hide QueueOk, BoxOk, CacheOk, OpsOk;
    CreateCallQueue(s, e.id, e.terms);
    CreateCallBox(s, e.id, e.terms, box);
    CreateCallCache(s, e.id, e.terms, box);
    CreateCallOps(s, e.id, e.terms, box);
  }

  lemma ServeGetWith(s: State, e: Event, box: Box)
    requires InvWith(s, box) && RefsOk(s) && Enabled(s, e) && e.ServeGet? && Agrees(s, box, s.ops[e.t].id)
    ensures Follows(s, e, box)
  {
    ServeGetOps(s, e.t, box);
    ServeGetRest(s, e.t, box);
    NothingIssued(s, e, box);
  }

  lemma ApplyPutWith(s: State, e: Event, box: Box)
    requires InvWith(s, box) && RefsOk(s) && Enabled(s, e) && e.ApplyPut?
    ensures Follows(s, e, box)
  {
    ApplyPutOps(s, box);
    ApplyPutQueue(s, box);
    assert CacheOk(Next(s, e).0, box);
    NothingIssued(s, e, box);
  }

  /** Every step that fits the box keeps the invariant against it and carries out its command. */
  lemma StepWith(s: State, e: Event, box: Box)
    requires InvWith(s, box) && RefsOk(s) && Enabled(s, e) && Fits(s, e, box)
    ensures Follows(s, e, box) && RefsOk(Next(s, e).0)
  {
    hide InvWith;
    if e.CreateCall? {
      CreateCallWith(s, e, box);
    } else if e.CreateResume? {
      CreateResumeWith(s, e, box);
    } else if e.VoteCall? && e.id in s.cache {
      VoteCallWith(s, e, box);
    } else if e.FinalizeCall? && e.id in s.cache {
      FinalizeCallWith(s, e, box);
    } else if e.VoteCall? || e.FinalizeCall? {
      SuspendWith(s, e, box);
    } else if e.VoteReadResume? || e.FinalizeReadResume? {
      ReadResumeWith(s, e, box);
    } else if e.VoteResume? {
      VoteResumeWith(s, e, box);
    } else if e.FinalizeResume? {
      FinalizeResumeWith(s, e, box);
    } else if e.ServeGet? {
      ServeGetWith(s, e, box);
    } else {
      ApplyPutWith(s, e, box);
    }
    RefsWith(Next(s, e).0, After(box, CommandOf(s, e)));
  }

  lemma RefsWith(s: State, box: Box)
    requires InvWith(s, box)
    ensures RefsOk(s)
  {
    forall t | t in s.ops ensures OpOk(s, box, t) {
    }
  }

  /** A step other than the application of a put either issues one, or leaves the store and its queue alone. */
  lemma StepOnStore(s: State, e: Event)
    requires RefsOk(s) && Enabled(s, e) && !e.ApplyPut?
    ensures var s1 := Next(s, e).0;
            (s1.store == s.store && s1.acked == s.acked && s1.pending == s.pending) || exists q :: Issues(s, s1, q)
  {
    var s1 := Next(s, e).0;
    if s1.pending != s.pending {
      assert Issues(s, s1, s1.pending[|s.pending|]);
    }
  }

  ghost predicate Issues(s: State, s1: State, q: Put) {
    s1.store == s.store && s1.acked == s.acked && s1.pending == s.pending + [q] && q.ticket == s.next
  }

  /** What the step does to the drained store is what its command does to the box. */
  lemma StepDrains(s: State, e: Event, box: Box)
    requires RefsOk(s) && Enabled(s, e) && Follows(s, e, box)
    ensures if exists q :: Issued(s, e, q, box)
            then exists q :: Issued(s, e, q, box) && BoxOf(Next(s, e).0) == BoxOf(s)[q.id := q.record]
            else BoxOf(Next(s, e).0) == BoxOf(s)
  {
    hide InvWith;
    if q :| Issued(s, e, q, box) {
      DrainAppend(s.store, s.pending, q);
    } else if !e.ApplyPut? {
      StepOnStore(s, e);
      OtherIssuesNothing(s, e, box);
    }
  }

  /** Only an accepted command issues a put. */
  lemma OtherIssuesNothing(s: State, e: Event, box: Box)
    requires RefsOk(s) && Enabled(s, e) && !(CommandOf(s, e).Some? && Next(s, e).1 == Some(Done))
    ensures forall q :: !Issues(s, Next(s, e).0, q)
  {
    if !e.ApplyPut? {
      assert Next(s, e).0.pending == s.pending;
    }
  }

  /** In a state that agrees with its drained store, what a step reads or chooses does as well. */
  lemma StepFits(s: State, e: Event)
    requires Inv(s) && RefsOk(s) && Enabled(s, e)
    ensures Fits(s, e, BoxOf(s))
  {
    if e.ServeGet? {
      assert OpOk(s, BoxOf(s), e.t);
      DrainOther(s.store, s.pending, s.ops[e.t].id);
    } else if e.CreateCall? {
      DrainOther(s.store, s.pending, e.id);
    }
  }

  /** Every step keeps the invariant and is one command of the atomic ballot box, or none; replies are the box's. */
  lemma StepRefines(s: State, e: Event)
    requires Inv(s) && RefsOk(s) && Enabled(s, e)
    ensures Inv(Next(s, e).0) && RefsOk(Next(s, e).0)
    ensures BoxOf(Next(s, e).0) == After(BoxOf(s), CommandOf(s, e))
    ensures CommandOf(s, e).Some? ==> Next(s, e).1 == Some(Answer(BoxOf(s), CommandOf(s, e).value))
  {
    hide InvWith;
    StepFits(s, e);
    StepWith(s, e, BoxOf(s));
    StepDrains(s, e, BoxOf(s));
  }

  // ---------- whole runs ----------

  /** The state after `es`, in any order of interleaving; a step that is not enabled does not happen. */
  function Reach(s: State, es: seq<Event>): State {
    if es == [] then s
    else
      var s1, e := Reach(s, es[..|es| - 1]), es[|es| - 1];
      if RefsOk(s1) && Enabled(s1, e) then Next(s1, e).0 else s1
  }

  /** The ballot-box commands carried out by `es`, in order. */
  function Commands(s: State, es: seq<Event>): seq<Command> {
    if es == [] then []
    else
      var s1, e := Reach(s, es[..|es| - 1]), es[|es| - 1];
      Commands(s, es[..|es| - 1]) + if Enabled(s1, e) && CommandOf(s1, e).Some? then [CommandOf(s1, e).value] else []
  }

  /** Under every interleaving the drained store is the atomic ballot box run on the same commands. */
  lemma {:induction false} RunRefines(s: State, disk: Box, es: seq<Event>)
    requires Initial(s, disk)
    ensures Inv(Reach(s, es)) && RefsOk(Reach(s, es))
    ensures BoxOf(Reach(s, es)) == Run(disk, Commands(s, es))
  {
    if es == [] {
      InitialInv(s, disk);
      RefsWith(s, disk);
    } else {
      var front, e := es[..|es| - 1], es[|es| - 1];
      RunRefines(s, disk, front);
      if Enabled(Reach(s, front), e) {
        StepRefines(Reach(s, front), e);
        RunOneMore(disk, Commands(s, front), CommandOf(Reach(s, front), e));
      } else {
        RunOneMore(disk, Commands(s, front), None);
      }
    }
  }

  lemma RunOneMore(box: Box, cs: seq<Command>, c: Option<Command>)
    ensures cs + [] == cs
    ensures c.Some? ==> Run(box, cs + [c.value]) == Step(Run(box, cs), c.value)
  {
    if c.Some? {
      assert (cs + [c.value])[..|cs|] == cs;
    }
  }

  /** Some run from a start-up leads to `s`. */
  ghost predicate Reachable(s: State) {
    exists s0, disk, es :: Initial(s0, disk) && s == Reach(s0, es)
  }

  lemma ReachableInv(s: State)
    requires Reachable(s)
    ensures Inv(s) && RefsOk(s)
  {
    var s0, disk, es :| Initial(s0, disk) && s == Reach(s0, es);
    RunRefines(s0, disk, es);
  }

  lemma ReachableStep(s: State, e: Event)
    requires Reachable(s) && Enabled(s, e)
    ensures RefsOk(s) && Reachable(Next(s, e).0)
    ensures BoxOf(Next(s, e).0) == After(BoxOf(s), CommandOf(s, e))
    ensures CommandOf(s, e).Some? ==> Next(s, e).1 == Some(Answer(BoxOf(s), CommandOf(s, e).value))
  {
    hide Initial, Inv, BoxOf, Next;
    ReachableInv(s);
    StepRefines(s, e);
    var s0, disk, es :| Initial(s0, disk) && s == Reach(s0, es);
    assert (es + [e])[..|es|] == es;
    assert Next(s, e).0 == Reach(s0, es + [e]);
  }

  /** In a reachable state a cached object is good, and is what the drained store holds. */
  lemma ReachableCached(s: State, id: Id)
    requires Reachable(s) && id in s.cache
    ensures s.cache[id] < |s.heap| && id in BoxOf(s) && BoxOf(s)[id] == s.heap[s.cache[id]] && Good(BoxOf(s)[id])
    ensures id !in s.creating
  {
    ReachableInv(s);
  }

  /** And every reply is the one the atomic ballot box gives at that point. */
  lemma RepliesAreTheBoxs(s: State, disk: Box, es: seq<Event>, e: Event)
    requires Initial(s, disk) && RefsOk(Reach(s, es)) && Enabled(Reach(s, es), e)
    requires CommandOf(Reach(s, es), e).Some?
    ensures Next(Reach(s, es), e).1 == Some(Answer(Run(disk, Commands(s, es)), CommandOf(Reach(s, es), e).value))
  {
    RunRefines(s, disk, es);
    StepRefines(Reach(s, es), e);
  }

  /** Draining the pending puts in order gives, for every cached proposal, exactly the cached object. */
  lemma CacheIsDrainedStore(s: State, disk: Box, es: seq<Event>, id: Id)
    requires Initial(s, disk) && id in Reach(s, es).cache
    ensures var s1 := Reach(s, es);
            s1.cache[id] < |s1.heap| && id in BoxOf(s1) && BoxOf(s1)[id] == s1.heap[s1.cache[id]]
  {
    RunRefines(s, disk, es);
  }

  /** A proposal still active in the store is cached, or its creation has not returned. */
  lemma ActiveInStoreIsCached(s: State, disk: Box, es: seq<Event>, id: Id)
    requires Initial(s, disk)
    requires id in Reach(s, es).store && Reach(s, es).store[id].status.Active?
    ensures id in Reach(s, es).cache || id in Reach(s, es).creating
  {
    RunRefines(s, disk, es);
    InvCaches(Reach(s, es), id);
  }

  lemma InvCaches(s: State, id: Id)
    requires Inv(s) && id in s.store && s.store[id].status.Active?
    ensures id in s.cache || id in s.creating
  {
    if forall i :: 0 <= i < |s.pending| ==> s.pending[i].id != id {
      DrainOther(s.store, s.pending, id);
    }
  }

  /** A vote or finalization that reads the store always finds a closed proposal, or none, and is refused. */
  lemma StoreReadsAreRefused(s: State, disk: Box, es: seq<Event>, e: Event)
    requires Initial(s, disk) && RefsOk(Reach(s, es)) && Enabled(Reach(s, es), e)
    requires e.VoteReadResume? || e.FinalizeReadResume?
    ensures Next(Reach(s, es), e).1 == Some(NotFound) || Next(Reach(s, es), e).1 == Some(NotActive)
  {
    RunRefines(s, disk, es);
    ReadFindsClosedWith(Reach(s, es), e.t, BoxOf(Reach(s, es)));
    ReadResumeIs(Reach(s, es), e, BoxOf(Reach(s, es)));
  }

  lemma {:induction false} ReachConcat(s: State, a: seq<Event>, b: seq<Event>)
    ensures Reach(s, a + b) == Reach(Reach(s, a), b)
    ensures Commands(s, a + b) == Commands(s, a) + Commands(Reach(s, a), b)
  {
    if b == [] {
      assert a + b == a;
    } else {
      assert (a + b)[..|a + b| - 1] == a + b[..|b| - 1];
      ReachConcat(s, a, b[..|b| - 1]);
    }
  }

  /**
   Frozen results. In every reachable state a closed proposal's results and outcome are the count of its
   votes, and in every later state, whatever interleaves, it is the same record: in the drained store,
   and in the cache for as long as it is still there.
   */
  lemma ClosedIsFrozen(s: State, disk: Box, es: seq<Event>, more: seq<Event>, id: Id)
    requires Initial(s, disk) && id in BoxOf(Reach(s, es)) && BoxOf(Reach(s, es))[id].status.Finalized?
    ensures var r, later := BoxOf(Reach(s, es))[id], Reach(s, es + more);
            && r.results == Some(TallyOf(r.terms.options, Values(r.votes)))
            && r.outcome == Outcome(r.results.value.options, r.terms.kind)
            && id in BoxOf(later) && BoxOf(later)[id] == r
            && (id in later.cache ==> later.cache[id] < |later.heap| && later.heap[later.cache[id]] == r)
  {
    RunRefines(s, disk, es);
    RunRefines(s, disk, es + more);
    BoxKeeps(s, disk, es, more, id);
  }

  lemma ReachableRun(s: State, disk: Box, es: seq<Event>)
    requires Initial(s, disk)
    ensures Reachable(Reach(s, es))
  {
  }

  lemma ReachableStaysOut(s: State, e: Event, id: Id)
    requires Reachable(s) && Enabled(s, e) && id in BoxOf(s) && id !in s.cache && id !in s.creating
    ensures RefsOk(s) && Reachable(Next(s, e).0)
    ensures id in BoxOf(Next(s, e).0) && id !in Next(s, e).0.cache && id !in Next(s, e).0.creating
  {
    hide Next;
    ReachableOut(s, e, id);
    ReachableStep(s, e);
    if CommandOf(s, e).Some? {
      assert id in Step(BoxOf(s), CommandOf(s, e).value);
    }
  }

  lemma ReachableOut(s: State, e: Event, id: Id)
    requires Reachable(s) && Enabled(s, e) && id in BoxOf(s) && id !in s.cache && id !in s.creating
    ensures RefsOk(s) && id !in Next(s, e).0.cache && id !in Next(s, e).0.creating
  {
    ReachableInv(s);
    InvStaysOut(s, e, id);
  }

  lemma {:induction false} OutOnwards(s: State, es: seq<Event>, id: Id)
    requires Reachable(s) && id in BoxOf(s) && id !in s.cache && id !in s.creating
    ensures Reachable(Reach(s, es)) && id in BoxOf(Reach(s, es))
    ensures id !in Reach(s, es).cache && id !in Reach(s, es).creating
  {
    if es != [] {
      OutOnwards(s, es[..|es| - 1], id);
      if Enabled(Reach(s, es[..|es| - 1]), es[|es| - 1]) {
        ReachableStaysOut(Reach(s, es[..|es| - 1]), es[|es| - 1], id);
      }
    }
  }

  /** A closed proposal that has left the cache never comes back, however late a vote goes on. */
  lemma ClosedStaysOut(s: State, disk: Box, es: seq<Event>, more: seq<Event>, id: Id)
    requires Initial(s, disk) && id in BoxOf(Reach(s, es)) && id !in Reach(s, es).cache && id !in Reach(s, es).creating
    ensures id !in Reach(s, es + more).cache && id !in Reach(s, es + more).creating
  {
    ReachableRun(s, disk, es);
    OutOnwards(Reach(s, es), more, id);
    ReachConcat(s, es, more);
  }

  lemma InvStaysOut(s: State, e: Event, id: Id)
    requires Inv(s) && RefsOk(s) && Enabled(s, e) && id in BoxOf(s) && id !in s.cache && id !in s.creating
    ensures id !in Next(s, e).0.cache && id !in Next(s, e).0.creating
  {
    CreationsAreListed(s);
    StepStaysOut(s, e, id);
  }

  lemma BoxKeeps(s: State, disk: Box, es: seq<Event>, more: seq<Event>, id: Id)
    requires Initial(s, disk) && id in BoxOf(Reach(s, es))
    ensures id in BoxOf(Reach(s, es + more)) && Grows(BoxOf(Reach(s, es))[id], BoxOf(Reach(s, es + more))[id])
  {
    RunRefines(s, disk, es);
    RunRefines(s, disk, es + more);
    ReachConcat(s, es, more);
    var cs := Commands(Reach(s, es), more);
    RunConcat(disk, Commands(s, es), cs);
    assert AllGood(BoxOf(Reach(s, es)));
    RunGrows(BoxOf(Reach(s, es)), cs, id);
  }

  lemma CreationsAreListed(s: State)
    requires Inv(s)
    ensures forall t :: t in s.ops && s.ops[t].Creating? ==> s.ops[t].id in s.creating
  {
    forall t | t in s.ops && s.ops[t].Creating? ensures s.ops[t].id in s.creating {
      assert OpOk(s, BoxOf(s), t);
    }
  }

  lemma StepStaysOut(s: State, e: Event, id: Id)
    requires RefsOk(s) && Enabled(s, e) && id in BoxOf(s) && id !in s.cache && id !in s.creating
    requires forall t :: t in s.ops && s.ops[t].Creating? ==> s.ops[t].id in s.creating
    ensures id !in Next(s, e).0.cache && id !in Next(s, e).0.creating
  {
    if e.CreateCall? && e.id == id {
      DrainOther(s.store, s.pending, id);
    }
  }

  /** A crash at any moment loses memory only: the store alone is a sound starting point again. */
  lemma RestartIsSound(s: State, disk: Box, es: seq<Event>, again: State, more: seq<Event>)
    requires Initial(s, disk)
    requires again.store == Reach(s, es).store && again.pending == [] && again.acked == {}
    requires again.ops == map[] && again.creating == map[]
    requires forall id :: id in again.cache <==> id in again.store && again.store[id].status.Active?
    requires forall id :: id in again.cache ==> again.cache[id] < |again.heap| && again.heap[again.cache[id]] == again.store[id]
    requires forall a, b :: a in again.cache && b in again.cache && a != b ==> again.cache[a] != again.cache[b]
    ensures Inv(Reach(again, more)) && BoxOf(Reach(again, more)) == Run(again.store, Commands(again, more))
  {
    RunRefines(s, disk, es);
    RunRefines(again, again.store, more);
  }
}
