/**
 Why a proposal id must not be used before createProposal has returned it. A vote on a proposal that is in the
 store and not yet in the cache is accepted on a copy; the creation then caches its own object, which does not
 have the ballot, and the vote's continuation may still put its copy in place of that. What becomes of the
 ballot is said here exactly, for every continuation.
 */
module EarlyVotes {
  import opened Basics
  import opened JsObject
  import opened Tally
  import opened BallotBox
  import opened VotingProtocol

  ghost predicate Leads(s: State, e: Event, s1: State) {
    RefsOk(s) && Enabled(s, e) && Next(s, e).0 == s1
  }

  // ---------- how such a vote is accepted ----------

  /** A proposal that is in the store before its creation has returned. */
  function HalfCreated(id: Id, terms: Terms): State {
    State([Opened(terms)], map[], map[id := Opened(terms)], [], {0}, map[0 := Creating(id, 0)], 1, map[id := 0])
  }

  lemma HalfCreatedIsReached(id: Id, terms: Terms)
    ensures Reach(State([], map[], map[], [], {}, map[], 0, map[]), [CreateCall(id, terms), ApplyPut]) == HalfCreated(id, terms)
  {
    var s0, r := State([], map[], map[], [], {}, map[], 0, map[]), Opened(terms);
    var s1 := State([r], map[], map[], [Put(0, id, r)], {}, map[0 := Creating(id, 0)], 1, map[id := 0]);
    assert [r][0 := r] == [r];
    assert Leads(s0, CreateCall(id, terms), s1) && Leads(s1, ApplyPut, HalfCreated(id, terms));
    var es := [CreateCall(id, terms), ApplyPut];
    assert es[..1] == [CreateCall(id, terms)] && es[..1][..0] == [];
    assert Reach(s0, es[..1]) == s1;
  }

  /** A vote that finds an active record in the store is accepted, on an object of its own. */
  lemma VoteOnCopy(s: State, t: nat, now: int)
    requires RefsOk(s) && Enabled(s, VoteReadResume(t, now)) && s.ops[t].fetch.record.Some?
    requires VoteReply(s.ops[t].fetch.record.value, s.ops[t].voter, s.ops[t].option, now).Done?
    ensures var op := s.ops[t];
            var v := Voted(op.fetch.record.value, op.voter, op.option, op.weight, now);
            Next(s, VoteReadResume(t, now)) ==
            (s.(heap := s.heap + [v], pending := s.pending + [Put(s.next, op.id, v)],
                ops := (s.ops - {t})[s.next := Voting(op.id, |s.heap|)], next := s.next + 1), Some(Done))
  {
    var op := s.ops[t];
    var r, v := op.fetch.record.value, Voted(op.fetch.record.value, op.voter, op.option, op.weight, now);
    assert (s.heap + [r])[|s.heap| := v] == s.heap + [v];
  }

  /** The state in which an early vote has been accepted: object 0 is the creation's, object 1 the copy with the ballot. */
  function WithEarlyVote(id: Id, terms: Terms, v: Record): State {
    HalfCreated(id, terms).(heap := [Opened(terms), v], pending := [Put(2, id, v)], next := 3,
                            ops := map[0 := Creating(id, 0), 2 := Voting(id, 1)])
  }

  lemma EarlyVoteIsAccepted(id: Id, terms: Terms, voter: Key, option: Key, weight: real, now: int) returns (s1: State, s2: State)
    requires option in terms.options && now <= terms.endsAt
    ensures s1 == Suspend(HalfCreated(id, terms), VoteRead(id, Waiting, voter, option, weight))
    ensures Leads(s1, ServeGet(1), s2)
    ensures Leads(s2, VoteReadResume(1, now), WithEarlyVote(id, terms, Voted(Opened(terms), voter, option, weight, now)))
    ensures RefsOk(s2) && Enabled(s2, VoteReadResume(1, now)) && Next(s2, VoteReadResume(1, now)).1 == Some(Done)
  {
    hide Suspend;
    s1, s2 := EarlyRead(id, terms, voter, option, weight);
    VoteOnCopy(s2, 1, now);
    assert s2.ops - {1} == map[0 := Creating(id, 0)];
  }

  /** The vote reads the proposal from the store. */
  lemma EarlyRead(id: Id, terms: Terms, voter: Key, option: Key, weight: real) returns (s1: State, s2: State)
    ensures s1 == Suspend(HalfCreated(id, terms), VoteRead(id, Waiting, voter, option, weight))
    ensures Leads(s1, ServeGet(1), s2)
    ensures s2 == HalfCreated(id, terms).(
                    next := 2,
                    ops := map[0 := Creating(id, 0), 1 := VoteRead(id, Arrived(Some(Opened(terms))), voter, option, weight)])
  {
    var read := VoteRead(id, Waiting, voter, option, weight);
    s1 := Suspend(HalfCreated(id, terms), read);
    s2 := s1.(ops := map[0 := Creating(id, 0), 1 := read.(fetch := Arrived(Some(Opened(terms))))]);
  }

  // ---------- the rest of the run, seen by the creation's object ----------

  /** The state without the suspended early vote. */
  function Shadow(s: State): State {
    s.(ops := s.ops - {2})
  }

  /** The step does not concern the early vote, or its continuation finds the proposal not in the cache. */
  ghost predicate KeepsCopyOut(s: State, e: Event, id: Id) {
    e == VoteResume(2) ==> id !in s.cache
  }

  /** The step votes on the proposal or closes it, and is accepted. */
  ghost predicate Writes(s: State, e: Event, id: Id) {
    RefsOk(s) && Enabled(s, e) && CommandOf(s, e).Some? && CommandOf(s, e).value.id == id && Next(s, e).1 == Some(Done)
  }

  /**
   How the state stands to `box`, the atomic box in which the early vote has never been cast: the cache and all
   operations but the early vote are in accord with it, and so is the drained store once the proposal has been
   written again (`written`); until then the drained store has `v`, the proposal with the early ballot.
   */
  ghost predicate Stands(s: State, id: Id, v: Record, box: Box, written: bool) {
    && RefsOk(s) && InvWith(Shadow(s), box)
    && 2 <= |s.heap| && s.heap[1] == v && EarlySuspended(s, id) && NobodyHolds(s, 1)
    && id in box && BoxOf(s) == (if written then box else box[id := v])
    && (!written ==> Untouched(s, id))
  }

  /** Only the early vote holds the copy. */
  ghost predicate NobodyHolds(s: State, ref: nat) {
    && (forall x :: x in s.cache ==> s.cache[x] != ref)
    && (forall t :: t in s.ops && t != 2 && (s.ops[t].Creating? || s.ops[t].Voting? || s.ops[t].Finalizing?) ==> s.ops[t].ref != ref)
  }

  /** The proposal is still being created, or cached, and no operation on it is suspended but its creation and the early vote. */
  ghost predicate Untouched(s: State, id: Id) {
    && (id in s.creating || id in s.cache)
    && (forall t :: t in s.ops && t != 2 && s.ops[t].id == id ==> s.ops[t].Creating?)
  }

  lemma EarlyStands(id: Id, terms: Terms, v: Record)
    requires Good(v)
    ensures Stands(WithEarlyVote(id, terms, v), id, v, map[id := Opened(terms)], false)
  {
    var s := WithEarlyVote(id, terms, v);
    DrainOne(s.store, Put(2, id, v));
    EarlyShadow(id, terms, v);
  }

  lemma EarlyShadow(id: Id, terms: Terms, v: Record)
    requires Good(v)
    ensures InvWith(Shadow(WithEarlyVote(id, terms, v)), map[id := Opened(terms)])
  {
    var s := Shadow(WithEarlyVote(id, terms, v));
    assert s.ops == map[0 := Creating(id, 0)];
    assert OpOk(s, map[id := Opened(terms)], 0);
  }

  lemma DrainOne(store: Box, p: Put)
    ensures Drain(store, [p]) == store[p.id := p.record]
  {
    assert [p][1..] == [];
    assert Drain(store[p.id := p.record], []) == store[p.id := p.record];
  }

  ghost predicate EarlySuspended(s: State, id: Id) {
    (2 in s.ops ==> s.ops[2] == Voting(id, 1)) && 2 < s.next
  }

  /** Without the early vote the step is the same. */
  ghost predicate SameStep(s: State, e: Event, id: Id) {
    && RefsOk(s) && Enabled(s, e) && RefsOk(Shadow(s)) && Enabled(Shadow(s), e)
    && CommandOf(Shadow(s), e) == CommandOf(s, e)
    && Next(Shadow(s), e) == (Shadow(Next(s, e).0), Next(s, e).1)
    && EarlySuspended(Next(s, e).0, id)
  }

  lemma ShadowCreate(s: State, e: Event, id: Id)
    requires RefsOk(s) && Enabled(s, e) && EarlySuspended(s, id) && e.CreateCall?
    ensures SameStep(s, e, id)
  {
    assert Shadow(Next(s, e).0).ops == Next(Shadow(s), e).0.ops;
  }

  lemma ShadowCall(s: State, e: Event, id: Id)
    requires RefsOk(s) && Enabled(s, e) && EarlySuspended(s, id) && (e.VoteCall? || e.FinalizeCall?)
    ensures SameStep(s, e, id)
  {
    hide Closed, Voted, VoteReply, RecordVote, CloseProposal;
    if e.id in s.cache {
      ShadowWrites(s, s.cache[e.id], e.id, id);
    }
    assert Shadow(Next(s, e).0).ops == Next(Shadow(s), e).0.ops;
  }

  /** Neither the checks nor the write of a vote or a closing look at the suspended operations. */
  lemma ShadowWrites(s: State, ref: nat, x: Id, id: Id)
    requires ref < |s.heap| && EarlySuspended(s, id)
    ensures forall voter, option, weight, now ::
              RecordVote(Shadow(s), ref, x, voter, option, weight, now)
              == (Shadow(RecordVote(s, ref, x, voter, option, weight, now).0), RecordVote(s, ref, x, voter, option, weight, now).1)
              && EarlySuspended(RecordVote(s, ref, x, voter, option, weight, now).0, id)
    ensures forall now ::
              CloseProposal(Shadow(s), ref, x, now) == (Shadow(CloseProposal(s, ref, x, now).0), CloseProposal(s, ref, x, now).1)
              && EarlySuspended(CloseProposal(s, ref, x, now).0, id)
  {
    hide Closed, Voted, VoteReply;
    forall r, op: Op ensures Write(Shadow(s), ref, x, r, op) == Shadow(Write(s, ref, x, r, op)) {
      assert Write(Shadow(s), ref, x, r, op).ops == Shadow(Write(s, ref, x, r, op)).ops;
    }
  }

  lemma ShadowRead(s: State, e: Event, id: Id)
    requires RefsOk(s) && Enabled(s, e) && EarlySuspended(s, id) && (e.VoteReadResume? || e.FinalizeReadResume?)
    ensures SameStep(s, e, id)
  {
    hide Closed, Voted, VoteReply, RecordVote, CloseProposal;
    assert s.ops - {e.t} - {2} == s.ops - {2} - {e.t};
    var op := s.ops[e.t];
    if op.fetch.record.Some? {
      ShadowWrites(Finish(s, e.t).(heap := s.heap + [op.fetch.record.value]), |s.heap|, op.id, id);
    }
  }

  lemma ShadowResume(s: State, e: Event, id: Id)
    requires RefsOk(s) && Enabled(s, e) && EarlySuspended(s, id) && e != VoteResume(2)
    requires e.CreateResume? || e.VoteResume? || e.FinalizeResume?
    ensures SameStep(s, e, id)
  {
    assert s.ops - {e.t} - {2} == s.ops - {2} - {e.t};
  }

  lemma ShadowStore(s: State, e: Event, id: Id)
    requires RefsOk(s) && Enabled(s, e) && EarlySuspended(s, id) && (e.ServeGet? || e.ApplyPut?)
    ensures SameStep(s, e, id)
  {
    assert Shadow(Next(s, e).0).ops == Next(Shadow(s), e).0.ops;
  }

  lemma ShadowStep(s: State, e: Event, id: Id)
    requires RefsOk(s) && Enabled(s, e) && e != VoteResume(2) && EarlySuspended(s, id)
    ensures SameStep(s, e, id)
  {
    hide SameStep, Enabled, RefsOk, EarlySuspended;
    if e.CreateCall? {
      ShadowCreate(s, e, id);
    } else if e.VoteCall? || e.FinalizeCall? {
      ShadowCall(s, e, id);
    } else if e.VoteReadResume? || e.FinalizeReadResume? {
      ShadowRead(s, e, id);
    } else if e.ServeGet? || e.ApplyPut? {
      ShadowStore(s, e, id);
    } else {
      ShadowResume(s, e, id);
    }
  }

  lemma ReadIsSettled(s: State, t: nat, id: Id, v: Record, box: Box, written: bool)
    requires Stands(s, id, v, box, written) && t in Shadow(s).ops && (s.ops[t].VoteRead? || s.ops[t].FinalizeRead?)
    ensures forall i :: 0 <= i < |s.pending| ==> s.pending[i].id != s.ops[t].id
    ensures s.ops[t].id == id ==> written
  {
    hide QueueOk, CacheOk, NobodyHolds, AllGood, Good, RefsOk, BoxOf;
    assert OpOk(Shadow(s), box, t);
  }

  /** What a step reads from the store, or chooses, is in accord with the box. */
  lemma ShadowFits(s: State, e: Event, id: Id, v: Record, box: Box, written: bool)
    requires Stands(s, id, v, box, written) && Enabled(Shadow(s), e)
    ensures Fits(Shadow(s), e, box)
  {
    if e.ServeGet? {
      ReadIsSettled(s, e.t, id, v, box, written);
      DrainOther(s.store, s.pending, s.ops[e.t].id);
    } else if e.CreateCall? {
      DrainOther(s.store, s.pending, e.id);
    }
  }

  lemma StepHolds(s: State, e: Event, id: Id)
    requires RefsOk(s) && Enabled(s, e) && NobodyHolds(s, 1) && 2 <= |s.heap| && e != VoteResume(2) && EarlySuspended(s, id)
    ensures NobodyHolds(Next(s, e).0, 1) && |s.heap| <= |Next(s, e).0.heap| && Next(s, e).0.heap[1] == s.heap[1]
  {
    hide RefsOk;
    if e.VoteCall? || e.FinalizeCall? {
      CallHolds(s, e, id);
    } else if e.VoteReadResume? || e.FinalizeReadResume? {
      ReadHolds(s, e, id);
    } else {
      OtherHolds(s, e, id);
    }
  }

  lemma CallHolds(s: State, e: Event, id: Id)
    requires RefsOk(s) && Enabled(s, e) && NobodyHolds(s, 1) && 2 <= |s.heap| && (e.VoteCall? || e.FinalizeCall?) && 2 < s.next
    ensures NobodyHolds(Next(s, e).0, 1) && |s.heap| <= |Next(s, e).0.heap| && Next(s, e).0.heap[1] == s.heap[1]
  {
  }

  lemma ReadHolds(s: State, e: Event, id: Id)
    requires RefsOk(s) && Enabled(s, e) && NobodyHolds(s, 1) && 2 <= |s.heap| && (e.VoteReadResume? || e.FinalizeReadResume?) && 2 < s.next
    ensures NobodyHolds(Next(s, e).0, 1) && |s.heap| <= |Next(s, e).0.heap| && Next(s, e).0.heap[1] == s.heap[1]
  {
  }

  lemma OtherHolds(s: State, e: Event, id: Id)
    requires RefsOk(s) && Enabled(s, e) && NobodyHolds(s, 1) && 2 <= |s.heap| && EarlySuspended(s, id) && e != VoteResume(2)
    requires !e.VoteCall? && !e.FinalizeCall? && !e.VoteReadResume? && !e.FinalizeReadResume?
    ensures NobodyHolds(Next(s, e).0, 1) && |s.heap| <= |Next(s, e).0.heap| && Next(s, e).0.heap[1] == s.heap[1]
  {
  }

  lemma StepUntouched(s: State, e: Event, id: Id)
    requires RefsOk(s) && Enabled(s, e) && Untouched(s, id) && e != VoteResume(2) && EarlySuspended(s, id) && !Writes(s, e, id)
    ensures Untouched(Next(s, e).0, id)
  {
  }

  lemma ResumeOutside(s: State, id: Id, v: Record, box: Box, written: bool)
    requires Stands(s, id, v, box, written) && Enabled(s, VoteResume(2)) && id !in s.cache
    ensures Stands(Next(s, VoteResume(2)).0, id, v, box, written)
  {
    hide InvWith, RefsOk;
    RefsStay(s, VoteResume(2));
    EarlyResumeIs(s, id);
  }

  lemma EarlyResumeIs(s: State, id: Id)
    requires RefsOk(s) && Enabled(s, VoteResume(2)) && EarlySuspended(s, id)
    ensures Next(s, VoteResume(2)).0 == Shadow(s).(cache := if id in s.cache then s.cache[id := 1] else s.cache)
    ensures Shadow(Shadow(s)) == Shadow(s) && BoxOf(Shadow(s)) == BoxOf(s)
  {
    assert s.ops - {2} - {2} == s.ops - {2};
  }

  /** One more step, of whatever operation, as long as the copy stays out of the cache. */
  lemma StepStands(s: State, e: Event, id: Id, v: Record, box: Box, written: bool)
    requires Stands(s, id, v, box, written) && Enabled(s, e) && KeepsCopyOut(s, e, id)
    ensures Stands(Next(s, e).0, id, v, After(box, CommandOf(s, e)), written || Writes(s, e, id))
  {
    hide InvWith, RefsOk, NobodyHolds, Untouched, EarlySuspended;
    if e == VoteResume(2) {
      ResumeOutside(s, id, v, box, written);
    } else {
      ShadowStep(s, e, id);
      ShadowFits(s, e, id, v, box, written);
      StepWith(Shadow(s), e, box);
      StepHolds(s, e, id);
      if !written && !Writes(s, e, id) {
        StepUntouched(s, e, id);
      }
      StepBoth(s, e, id, v, box, written);
      RefsStay(s, e);
      StaysIn(box, CommandOf(s, e), id);
    }
  }

  lemma StaysIn(box: Box, c: Option<Command>, id: Id)
    requires id in box
    ensures id in After(box, c)
  {
  }

  lemma RefsStay(s: State, e: Event)
    requires RefsOk(s) && Enabled(s, e)
    ensures RefsOk(Next(s, e).0)
  {
    hide Closed, Voted, VoteReply, Fresh;
    if e.VoteCall? || e.FinalizeCall? {
      CallRefs(s, e);
    }
  }

  lemma CallRefs(s: State, e: Event)
    requires RefsOk(s) && Enabled(s, e) && (e.VoteCall? || e.FinalizeCall?)
    ensures RefsOk(Next(s, e).0)
  {
    hide Closed, Voted, VoteReply;
  }

  /** What becomes of the drained store. */
  lemma StepBoth(s: State, e: Event, id: Id, v: Record, box: Box, written: bool)
    requires RefsOk(s) && Enabled(s, e) && RefsOk(Shadow(s)) && Enabled(Shadow(s), e) && Follows(Shadow(s), e, box)
    requires CommandOf(Shadow(s), e) == CommandOf(s, e) && Next(Shadow(s), e) == (Shadow(Next(s, e).0), Next(s, e).1)
    requires id in box && BoxOf(s) == (if written then box else box[id := v])
    ensures BoxOf(Next(s, e).0)
         == if written || Writes(s, e, id) then After(box, CommandOf(s, e)) else After(box, CommandOf(s, e))[id := v]
  {
    hide InvWith, Next, RefsOk, Enabled, Issued, Follows;
    var t, s1 := Shadow(s), Next(s, e).0;
    StepDrains(t, e, box);
    SameDrain(s);
    SameDrain(s1);
    FollowsMeans(t, e, box);
    var box1 := After(box, CommandOf(t, e));
    if exists q :: Issued(t, e, q, box) {
      var q :| Issued(t, e, q, box) && BoxOf(Next(t, e).0) == BoxOf(t)[q.id := q.record];
      BothBoxes(BoxOf(s), BoxOf(s1), box, box1, id, v, written, Writes(s, e, id), Some(q));
    } else {
      BothBoxes(BoxOf(s), BoxOf(s1), box, box1, id, v, written, Writes(s, e, id), None);
    }
  }

  lemma SameDrain(s: State)
    ensures BoxOf(Shadow(s)) == BoxOf(s)
  {
  }

  lemma BothBoxes(b: Box, b1: Box, box: Box, box1: Box, id: Id, v: Record, written: bool, writes: bool, q: Option<Put>)
    requires id in box && b == (if written then box else box[id := v])
    requires if q.None? then b1 == b && box1 == box && !writes
             else b1 == b[q.value.id := q.value.record] && box1 == box[q.value.id := q.value.record] && writes == (q.value.id == id)
    ensures b1 == if written || writes then box1 else box1[id := v]
  {
  }

  /** An accepted command issues the put of what it makes of the box; any other step leaves the box alone. */
  lemma FollowsMeans(s: State, e: Event, box: Box)
    requires RefsOk(s) && Enabled(s, e) && Follows(s, e, box)
    ensures (exists q :: Issued(s, e, q, box)) <==> CommandOf(s, e).Some? && Next(s, e).1 == Some(Done)
    ensures forall q :: Issued(s, e, q, box) ==>
              CommandOf(s, e).Some? && CommandOf(s, e).value.id == q.id && After(box, CommandOf(s, e)) == box[q.id := q.record]
    ensures !(CommandOf(s, e).Some? && Next(s, e).1 == Some(Done)) ==> After(box, CommandOf(s, e)) == box
  {
    hide InvWith, Next, RefsOk, Enabled;
  }

  // ---------- for every continuation ----------

  /** In no step of the run does the early vote's continuation put its copy into the cache. */
  ghost predicate CopyStaysOut(s: State, es: seq<Event>, id: Id) {
    forall i :: 0 <= i < |es| && Enabled(Reach(s, es[..i]), es[i]) ==> KeepsCopyOut(Reach(s, es[..i]), es[i], id)
  }

  /** Some step of the run writes the proposal. */
  ghost predicate Written(s: State, es: seq<Event>, id: Id) {
    exists i :: 0 <= i < |es| && Writes(Reach(s, es[..i]), es[i], id)
  }

  lemma WrittenMore(s: State, es: seq<Event>, e: Event, id: Id)
    ensures Written(s, es + [e], id) <==> Written(s, es, id) || Writes(Reach(s, es), e, id)
  {
    var more := es + [e];
    if Written(s, more, id) {
      var i :| 0 <= i < |more| && Writes(Reach(s, more[..i]), more[i], id);
      assert more[..i] == es[..i];
      assert i == |es| ==> es[..i] == es;
    }
    if Written(s, es, id) {
      var i :| 0 <= i < |es| && Writes(Reach(s, es[..i]), es[i], id);
      assert more[..i] == es[..i] && more[i] == es[i];
    }
    assert more[..|es|] == es && more[|es|] == e;
  }

  lemma StaysOutLess(s: State, es: seq<Event>, e: Event, id: Id)
    requires CopyStaysOut(s, es + [e], id)
    ensures CopyStaysOut(s, es, id) && (Enabled(Reach(s, es), e) ==> KeepsCopyOut(Reach(s, es), e, id))
  {
    var more := es + [e];
    forall i | 0 <= i < |es| && Enabled(Reach(s, es[..i]), es[i]) ensures KeepsCopyOut(Reach(s, es[..i]), es[i], id) {
      assert more[..i] == es[..i] && more[i] == es[i];
    }
    assert more[..|es|] == es && more[|es|] == e;
  }

  lemma {:induction false} RunStands(s: State, es: seq<Event>, id: Id, v: Record, box: Box)
    requires Stands(s, id, v, box, false) && CopyStaysOut(s, es, id)
    ensures Stands(Reach(s, es), id, v, Run(box, Commands(s, es)), Written(s, es, id))
  {
    hide Stands, Next, RefsOk, Writes, KeepsCopyOut;
    if es != [] {
      var front, e := es[..|es| - 1], es[|es| - 1];
      assert es == front + [e];
      StaysOutLess(s, front, e, id);
      WrittenMore(s, front, e, id);
      RunStands(s, front, id, v, box);
      StandsRefs(Reach(s, front), id, v, Run(box, Commands(s, front)), Written(s, front, id));
      if Enabled(Reach(s, front), e) {
        StepStands(Reach(s, front), e, id, v, Run(box, Commands(s, front)), Written(s, front, id));
        RunOneMore(box, Commands(s, front), CommandOf(Reach(s, front), e));
      } else {
        RunOneMore(box, Commands(s, front), None);
        DisabledWrites(Reach(s, front), e, id);
      }
    }
  }

  lemma StandsRefs(s: State, id: Id, v: Record, box: Box, written: bool)
    requires Stands(s, id, v, box, written)
    ensures RefsOk(s)
  {
  }

  lemma DisabledWrites(s: State, e: Event, id: Id)
    requires !Enabled(s, e)
    ensures !Writes(s, e, id)
  {
  }

  /**
   The early ballot, for every continuation in which the copy has not come into the cache: the drained store is
   that of the atomic box in which the vote was never cast, except that it has the ballot as long as no other
   vote on the proposal and no closing of it has been accepted. So the ballot is there if and only if none
   has been, or the voter has voted again.
   */
  lemma EarlyBallotIff(id: Id, terms: Terms, voter: Key, option: Key, weight: real, now: int, es: seq<Event>)
    requires option in terms.options && now <= terms.endsAt
    requires CopyStaysOut(WithEarlyVote(id, terms, Voted(Opened(terms), voter, option, weight, now)), es, id)
    ensures var s0 := WithEarlyVote(id, terms, Voted(Opened(terms), voter, option, weight, now));
            var v, box, s := Voted(Opened(terms), voter, option, weight, now), Run(map[id := Opened(terms)], Commands(s0, es)), Reach(s0, es);
            && id in box && BoxOf(s) == (if Written(s0, es, id) then box else box[id := v])
            && (Has(BoxOf(s)[id].votes, voter) <==> !Written(s0, es, id) || Has(box[id].votes, voter))
  {
    var v := Voted(Opened(terms), voter, option, weight, now);
    EarlyIsGood(terms, voter, option, weight, now);
    EarlyStands(id, terms, v);
    RunStands(WithEarlyVote(id, terms, v), es, id, v, map[id := Opened(terms)]);
  }

  lemma EarlyIsGood(terms: Terms, voter: Key, option: Key, weight: real, now: int)
    requires option in terms.options && now <= terms.endsAt
    ensures var v := Voted(Opened(terms), voter, option, weight, now);
            Good(v) && Get(v.votes, voter) == Some(Vote(option, weight, now)) && Has(v.votes, voter)
  {
    VotedIsGood(Opened(terms), voter, option, weight, now);
    PutSound<Vote>([], voter, Vote(option, weight, now));
  }

  // ---------- when the copy comes into the cache ----------

  /** If nothing has been written, the continuation that caches the copy puts everything right ... */
  lemma ResumeHeals(s: State, id: Id, v: Record, box: Box)
    requires Stands(s, id, v, box, false) && Enabled(s, VoteResume(2)) && id in s.cache && Good(v) && v.status.Active?
    ensures Inv(Next(s, VoteResume(2)).0) && BoxOf(Next(s, VoteResume(2)).0) == box[id := v]
  {
    var s1 := Next(s, VoteResume(2)).0;
    EarlyResumeIs(s, id);
    HealedBox(s, s1, id, v, box);
    HealedCache(s, s1, id, v, box);
    HealedOps(s, s1, id, v, box);
  }

  lemma HealedBox(s: State, s1: State, id: Id, v: Record, box: Box)
    requires Stands(s, id, v, box, false) && id in s.cache && s1 == Shadow(s).(cache := s.cache[id := 1]) && Good(v)
    ensures QueueOk(s1) && BoxOk(s1, box[id := v])
  {
    hide OpsOk, CacheOk;
  }

  lemma HealedCache(s: State, s1: State, id: Id, v: Record, box: Box)
    requires Stands(s, id, v, box, false) && id in s.cache && s1 == Shadow(s).(cache := s.cache[id := 1])
    ensures CacheOk(s1, box[id := v])
  {
    hide OpsOk, BoxOk, QueueOk;
  }

  lemma HealedOps(s: State, s1: State, id: Id, v: Record, box: Box)
    requires Stands(s, id, v, box, false) && id in s.cache && s1 == Shadow(s).(cache := s.cache[id := 1])
    ensures OpsOk(s1, box[id := v])
  {
    forall t | t in s1.ops ensures OpOk(s1, box[id := v], t) {
      HealedOp(s, s1, id, v, box, t);
    }
  }

  lemma HealedOp(s: State, s1: State, id: Id, v: Record, box: Box, t: nat)
    requires Stands(s, id, v, box, false) && id in s.cache && s1 == Shadow(s).(cache := s.cache[id := 1]) && t in s1.ops
    ensures OpOk(s1, box[id := v], t)
  {
    hide BoxOk, QueueOk;
    assert OpOk(Shadow(s), box, t);
  }

  lemma {:induction false} RunFromInv(s: State, es: seq<Event>)
    requires Inv(s) && RefsOk(s)
    ensures Inv(Reach(s, es)) && RefsOk(Reach(s, es)) && BoxOf(Reach(s, es)) == Run(BoxOf(s), Commands(s, es))
  {
    hide Inv, RefsOk, Next;
    if es != [] {
      var front, e := es[..|es| - 1], es[|es| - 1];
      RunFromInv(s, front);
      if Enabled(Reach(s, front), e) {
        StepRefines(Reach(s, front), e);
        RunOneMore(BoxOf(s), Commands(s, front), CommandOf(Reach(s, front), e));
      } else {
        RunOneMore(BoxOf(s), Commands(s, front), None);
      }
    }
  }

  /** ... and the early ballot is in the box for good, as any other. */
  lemma HealedForGood(id: Id, terms: Terms, voter: Key, option: Key, weight: real, now: int, es: seq<Event>, more: seq<Event>)
    requires option in terms.options && now <= terms.endsAt
    requires var s0 := WithEarlyVote(id, terms, Voted(Opened(terms), voter, option, weight, now));
             && CopyStaysOut(s0, es, id) && !Written(s0, es, id)
             && RefsOk(Reach(s0, es)) && Enabled(Reach(s0, es), VoteResume(2)) && id in Reach(s0, es).cache
    ensures var s0 := WithEarlyVote(id, terms, Voted(Opened(terms), voter, option, weight, now));
            var s := Reach(Next(Reach(s0, es), VoteResume(2)).0, more);
            && Inv(s) && id in BoxOf(s) && Get(BoxOf(s)[id].votes, voter) == Some(Vote(option, weight, now))
  {
    var v := Voted(Opened(terms), voter, option, weight, now);
    var s0 := WithEarlyVote(id, terms, v);
    EarlyIsGood(terms, voter, option, weight, now);
    EarlyStands(id, terms, v);
    RunStands(s0, es, id, v, map[id := Opened(terms)]);
    var s := Reach(s0, es);
    ResumeHeals(s, id, v, Run(map[id := Opened(terms)], Commands(s0, es)));
    RefsStay(s, VoteResume(2));
    KeptForGood(Next(s, VoteResume(2)).0, id, v, voter, more);
  }

  lemma KeptForGood(s: State, id: Id, v: Record, voter: Key, more: seq<Event>)
    requires Inv(s) && RefsOk(s) && id in BoxOf(s) && BoxOf(s)[id] == v && Has(v.votes, voter)
    ensures Inv(Reach(s, more)) && id in BoxOf(Reach(s, more)) && Get(BoxOf(Reach(s, more))[id].votes, voter) == Get(v.votes, voter)
  {
    RunFromInv(s, more);
    RunGrows(BoxOf(s), Commands(s, more), id);
  }

  /** A step that does not write the proposal leaves it alone in the drained store. */
  lemma QuietStep(s: State, e: Event, id: Id)
    requires RefsOk(s) && Enabled(s, e) && id in BoxOf(s) && !Writes(s, e, id)
    ensures id in BoxOf(Next(s, e).0) && BoxOf(Next(s, e).0)[id] == BoxOf(s)[id]
  {
    var s1 := Next(s, e).0;
    if !e.ApplyPut? {
      StepOnStore(s, e);
      if q :| Issues(s, s1, q) {
        QuietIssue(s, e, id, q);
        DrainAppend(s.store, s.pending, q);
      }
    }
  }

  lemma QuietIssue(s: State, e: Event, id: Id, q: Put)
    requires RefsOk(s) && Enabled(s, e) && !Writes(s, e, id) && !e.ApplyPut? && Issues(s, Next(s, e).0, q)
    ensures q.id != id
  {
    if !(CommandOf(s, e).Some? && Next(s, e).1 == Some(Done)) {
      OtherIssuesNothing(s, e, map[]);
    } else {
      assert Next(s, e).0.pending[|s.pending|] == q;
    }
  }

  lemma {:induction false} RunQuiet(s: State, es: seq<Event>, id: Id)
    requires RefsOk(s) && id in BoxOf(s) && !Written(s, es, id)
    ensures RefsOk(Reach(s, es)) && id in BoxOf(Reach(s, es)) && BoxOf(Reach(s, es))[id] == BoxOf(s)[id]
  {
    hide Next, Writes, BoxOf, RefsOk;
    if es != [] {
      var front, e := es[..|es| - 1], es[|es| - 1];
      assert es == front + [e];
      WrittenMore(s, front, e, id);
      RunQuiet(s, front, id);
      if Enabled(Reach(s, front), e) {
        QuietStep(Reach(s, front), e, id);
        RefsStay(Reach(s, front), e);
      }
    }
  }

  /**
   If the proposal has been written before, caching the copy does not bring the ballot into the store: the cached
   object has it, but until the proposal is written once more the drained store has it as the box without the
   early vote does. So the ballot is there if and only if the voter has voted again.
   */
  lemma NotHealedOnceWritten(id: Id, terms: Terms, voter: Key, option: Key, weight: real, now: int, es: seq<Event>, more: seq<Event>)
    requires option in terms.options && now <= terms.endsAt
    requires var s0 := WithEarlyVote(id, terms, Voted(Opened(terms), voter, option, weight, now));
             && CopyStaysOut(s0, es, id) && Written(s0, es, id)
             && RefsOk(Reach(s0, es)) && Enabled(Reach(s0, es), VoteResume(2)) && id in Reach(s0, es).cache
             && !Written(Next(Reach(s0, es), VoteResume(2)).0, more, id)
    ensures var s0 := WithEarlyVote(id, terms, Voted(Opened(terms), voter, option, weight, now));
            var s, box := Next(Reach(s0, es), VoteResume(2)).0, Run(map[id := Opened(terms)], Commands(s0, es));
            && id in s.cache && s.cache[id] < |s.heap| && Get(s.heap[s.cache[id]].votes, voter) == Some(Vote(option, weight, now))
            && id in box && id in BoxOf(Reach(s, more)) && BoxOf(Reach(s, more))[id] == box[id]
            && (Has(BoxOf(Reach(s, more))[id].votes, voter) <==> Has(box[id].votes, voter))
  {
    hide BoxOf;
    var v := Voted(Opened(terms), voter, option, weight, now);
    var s0 := WithEarlyVote(id, terms, v);
    EarlyIsGood(terms, voter, option, weight, now);
    EarlyStands(id, terms, v);
    RunStands(s0, es, id, v, map[id := Opened(terms)]);
    ResumeDoesNotHelp(Reach(s0, es), id, v, Run(map[id := Opened(terms)], Commands(s0, es)));
    RefsStay(Reach(s0, es), VoteResume(2));
    RunQuiet(Next(Reach(s0, es), VoteResume(2)).0, more, id);
  }

  lemma ResumeDoesNotHelp(s: State, id: Id, v: Record, box: Box)
    requires Stands(s, id, v, box, true) && Enabled(s, VoteResume(2)) && id in s.cache
    ensures RefsOk(s) && id in box
    ensures var s1 := Next(s, VoteResume(2)).0;
            BoxOf(s1) == box && id in s1.cache && s1.cache[id] < |s1.heap| && s1.heap[s1.cache[id]] == v
  {
    hide InvWith;
    EarlyResumeIs(s, id);
  }

  // ---------- a run in which the ballot is lost ----------

  /** The proposal is closed by its creator's object before the early vote goes on. */
  function ClosedEarly(id: Id, terms: Terms, v: Record, end: int): State {
    WithEarlyVote(id, terms, v).(
      heap := [Closed(Opened(terms), end), v], cache := map[id := 0], creating := map[],
      pending := [Put(2, id, v), Put(3, id, Closed(Opened(terms), end))], next := 4,
      ops := map[2 := Voting(id, 1), 3 := Finalizing(id, 0)])
  }

  lemma ClosesEarly(id: Id, terms: Terms, v: Record, end: int) returns (s1: State)
    ensures Leads(WithEarlyVote(id, terms, v), CreateResume(0), s1)
    ensures Leads(s1, FinalizeCall(id, end), ClosedEarly(id, terms, v, end)) && Next(s1, FinalizeCall(id, end)).1 == Some(Done)
  {
    hide TallyOf, Outcome;
    var s := WithEarlyVote(id, terms, v);
    s1 := s.(cache := map[id := 0], creating := map[], ops := map[2 := Voting(id, 1)]);
    assert s.ops - {0} == s1.ops && s.creating - {id} == map[];
    assert s1.heap[0 := Closed(Opened(terms), end)] == [Closed(Opened(terms), end), v];
    assert s1.pending + [Put(3, id, Closed(Opened(terms), end))] == ClosedEarly(id, terms, v, end).pending;
  }

  /** All has come to rest: the proposal is closed in the store, and nothing is cached, pending or suspended. */
  function AtRest(id: Id, terms: Terms, v: Record, end: int): State {
    ClosedEarly(id, terms, v, end).(
      cache := map[], store := map[id := Closed(Opened(terms), end)], pending := [], acked := {0, 2, 3}, ops := map[])
  }

  lemma PutsApplied(id: Id, terms: Terms, v: Record, end: int) returns (s1: State, s2: State)
    ensures Leads(ClosedEarly(id, terms, v, end), ApplyPut, s1) && Leads(s1, ApplyPut, s2)
    ensures s2 == ClosedEarly(id, terms, v, end).(
                    store := map[id := Closed(Opened(terms), end)], pending := [], acked := {0, 2, 3})
  {
    hide TallyOf, Outcome;
    var s, c := ClosedEarly(id, terms, v, end), Closed(Opened(terms), end);
    s1 := s.(store := map[id := v], pending := [Put(3, id, c)], acked := {0, 2});
    s2 := s1.(store := map[id := c], pending := [], acked := {0, 2, 3});
    assert s.pending[1..] == s1.pending && s1.pending[1..] == [];
  }

  lemma ComesToRest(id: Id, terms: Terms, v: Record, end: int) returns (s1: State, s2: State, s3: State)
    ensures Leads(ClosedEarly(id, terms, v, end), ApplyPut, s1) && Leads(s1, ApplyPut, s2)
    ensures Leads(s2, VoteResume(2), s3) && Leads(s3, FinalizeResume(3), AtRest(id, terms, v, end))
  {
    hide TallyOf, Outcome, Closed;
    s1, s2 := PutsApplied(id, terms, v, end);
    s3 := s2.(cache := map[id := 1], ops := map[3 := Finalizing(id, 0)]);
    assert s2.ops - {2} == s3.ops && s2.cache[id := 1] == s3.cache;
    assert s3.ops - {3} == map[] && s3.cache - {id} == map[];
  }

  /**
   An early vote that is lost: createProposal, castVote and finalizeProposal have all returned without an error,
   the proposal is closed, and the ballot is neither in its votes nor in its results.
   */
  lemma EarlyVoteIsLost(id: Id, terms: Terms, voter: Key, option: Key, weight: real, now: int, end: int)
    returns (s1: State, s2: State, s3: State, s4: State, s5: State, s6: State, s7: State)
    requires option in terms.options && now <= terms.endsAt
    ensures var v := Voted(Opened(terms), voter, option, weight, now);
            && s1 == Suspend(HalfCreated(id, terms), VoteRead(id, Waiting, voter, option, weight))  // castVote of an id not cached
            && Leads(s1, ServeGet(1), s2)
            && Leads(s2, VoteReadResume(1, now), WithEarlyVote(id, terms, v))
            && Leads(WithEarlyVote(id, terms, v), CreateResume(0), s3)
            && Leads(s3, FinalizeCall(id, end), s4) && Leads(s4, ApplyPut, s5) && Leads(s5, ApplyPut, s6)
            && Leads(s6, VoteResume(2), s7) && Leads(s7, FinalizeResume(3), AtRest(id, terms, v, end))
    ensures var s8 := AtRest(id, terms, Voted(Opened(terms), voter, option, weight, now), end);
            && s8.ops == map[] && s8.pending == [] && id in s8.store && s8.store[id].status.Finalized?
            && s8.store[id].votes == [] && s8.store[id].results == Some(TallyOf(terms.options, []))
  {
    hide Leads, TallyOf;
    var v := Voted(Opened(terms), voter, option, weight, now);
    s1, s2 := EarlyVoteIsAccepted(id, terms, voter, option, weight, now);
    s3 := ClosesEarly(id, terms, v, end);
    s4 := ClosedEarly(id, terms, v, end);
    s5, s6, s7 := ComesToRest(id, terms, v, end);
    assert Values<Vote>([]) == [];
  }
}
