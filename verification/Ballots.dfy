/**
 The ballot box against its history. What the box answers is said here by the list of commands alone: which proposals
 have been created, which have been closed, and who has cast which ballot. From that follow when a vote is accepted,
 how long voting is open, and that the order of the ballots makes no difference.
 */
module Ballots {
  import opened Basics
  import opened JsObject
  import opened Tally
  import opened BallotBox
  import opened Outcomes
  import P = VotingProtocol

  // ---------- the history ----------

  /** The terms under which the proposal was created, if it was. */
  ghost function Created(cs: seq<Command>, id: Id): Option<Terms> {
    if cs == [] then None
    else
      var before, c := Created(cs[..|cs| - 1], id), cs[|cs| - 1];
      if before.None? && c.Create? && c.id == id then Some(c.terms) else before
  }

  /** When it was closed, if it was: by the first attempt after its creation. */
  ghost function ClosedAt(cs: seq<Command>, id: Id): Option<int> {
    if cs == [] then None
    else
      var front, c := cs[..|cs| - 1], cs[|cs| - 1];
      if ClosedAt(front, id).None? && c.Close? && c.id == id && Created(front, id).Some? then Some(c.now) else ClosedAt(front, id)
  }

  /** The ballot of a voter, if there is one: the first vote that met all conditions. */
  ghost function BallotOf(cs: seq<Command>, id: Id, voter: Key): Option<Vote>
    decreases |cs|, 0
  {
    if cs == [] then None
    else
      var front, c := cs[..|cs| - 1], cs[|cs| - 1];
      if c.Cast? && c.id == id && c.voter == voter && Admissible(front, c) then Some(Vote(c.option, c.weight, c.now))
      else BallotOf(front, id, voter)
  }

  /** A vote that has to be accepted after `cs`. */
  ghost predicate Admissible(cs: seq<Command>, c: Command)
    requires c.Cast?
    decreases |cs|, 1
  {
    && Created(cs, c.id).Some? && ClosedAt(cs, c.id).None?
    && c.now <= Created(cs, c.id).value.endsAt
    && BallotOf(cs, c.id, c.voter).None?
    && c.option in Created(cs, c.id).value.options
  }

  // ---------- the box is its history ----------

  /** The box has exactly what the history says about this proposal and this voter. */
  ghost predicate Tells(cs: seq<Command>, box: Box, id: Id, voter: Key) {
    && (id in box <==> Created(cs, id).Some?)
    && (id in box ==>
          && Good(box[id])
          && box[id].terms == Created(cs, id).value
          && (box[id].status.Active? <==> ClosedAt(cs, id).None?)
          && box[id].finalizedAt == ClosedAt(cs, id)
          && Get(box[id].votes, voter) == BallotOf(cs, id, voter))
    && (id !in box ==> ClosedAt(cs, id).None? && BallotOf(cs, id, voter).None?)
  }

  /** What one more command adds to the history. */
  lemma HistoryMore(front: seq<Command>, c: Command, id: Id, voter: Key)
    ensures var cs := front + [c];
            && Created(cs, id) == (if Created(front, id).None? && c.Create? && c.id == id then Some(c.terms) else Created(front, id))
            && ClosedAt(cs, id) == (if ClosedAt(front, id).None? && c.Close? && c.id == id && Created(front, id).Some?
                                    then Some(c.now) else ClosedAt(front, id))
            && BallotOf(cs, id, voter) == if c.Cast? && c.id == id && c.voter == voter && Admissible(front, c)
                                          then Some(Vote(c.option, c.weight, c.now)) else BallotOf(front, id, voter)
  {
    assert (front + [c])[..|front|] == front;
  }

  lemma TellsMore(front: seq<Command>, c: Command, box: Box, id: Id, voter: Key)
    requires AllGood(box) && Tells(front, box, id, voter)
    requires c.Cast? ==> Tells(front, box, c.id, c.voter)
    ensures Tells(front + [c], Step(box, c), id, voter)
  {
    hide Good, Created, ClosedAt, BallotOf;
    HistoryMore(front, c, id, voter);
    if c.id == id && c.Cast? {
      TellsVote(front, c, box, voter);
    } else if c.id == id {
      StepKeepsGood(box, c);
    }
  }

  lemma TellsVote(front: seq<Command>, c: Command, box: Box, voter: Key)
    requires AllGood(box) && Tells(front, box, c.id, voter) && c.Cast? && Tells(front, box, c.id, c.voter)
    ensures Tells(front + [c], Step(box, c), c.id, voter)
  {
    hide Good, Created, ClosedAt, BallotOf;
    HistoryMore(front, c, c.id, voter);
    if c.id in box {
      StepKeepsGood(box, c);
      HasIsGet(box[c.id].votes, c.voter);
      GoodOrder(box[c.id]);
      PutSound(box[c.id].votes, c.voter, Vote(c.option, c.weight, c.now));
    }
  }

  lemma GoodOrder(r: Record)
    requires Good(r)
    ensures WellOrdered(r.votes)
  {
  }

  lemma HasIsGet(votes: Obj<Vote>, voter: Key)
    ensures Has(votes, voter) <==> Get(votes, voter).Some?
  {
  }

  lemma {:induction false} BoxIsItsHistory(cs: seq<Command>, id: Id, voter: Key)
    ensures AllGood(Run(map[], cs)) && Tells(cs, Run(map[], cs), id, voter)
  {
    RunKeepsGood(map[], cs);
    if cs != [] {
      var front, c := cs[..|cs| - 1], cs[|cs| - 1];
      BoxIsItsHistory(front, id, voter);
      if c.Cast? {
        BoxIsItsHistory(front, c.id, c.voter);
      }
      TellsMore(front, c, Run(map[], front), id, voter);
      assert front + [c] == cs;
    }
  }

  /** What castVote answers after any history: the first condition that fails gives the error. */
  lemma VoteAnswer(cs: seq<Command>, c: Command)
    requires c.Cast?
    ensures var answer := Answer(Run(map[], cs), c);
            && (answer == Done <==> Admissible(cs, c))
            && (answer == NotFound <==> Created(cs, c.id).None?)
            && (answer == NotActive <==> ClosedAt(cs, c.id).Some?)
            && (Created(cs, c.id).Some? && ClosedAt(cs, c.id).None? ==>
                  var terms := Created(cs, c.id).value;
                  && (answer == Ended <==> c.now > terms.endsAt)
                  && (answer == AlreadyVoted <==> c.now <= terms.endsAt && BallotOf(cs, c.id, c.voter).Some?)
                  && (answer == InvalidOption <==>
                        c.now <= terms.endsAt && BallotOf(cs, c.id, c.voter).None? && c.option !in terms.options))
  {
    BoxIsItsHistory(cs, c.id, c.voter);
  }

  /** What finalizeProposal answers: it succeeds exactly once, whatever the time. */
  lemma CloseAnswer(cs: seq<Command>, id: Id, now: int)
    ensures var answer := Answer(Run(map[], cs), Close(id, now));
            && (answer == Done <==> Created(cs, id).Some? && ClosedAt(cs, id).None?)
            && (answer == NotFound <==> Created(cs, id).None?)
            && (answer == NotActive <==> ClosedAt(cs, id).Some?)
  {
    BoxIsItsHistory(cs, id, NO_CONSENSUS);
  }

  // ---------- how long voting is open ----------

  lemma {:induction false} StillCreated(cs: seq<Command>, id: Id, more: seq<Command>)
    requires Created(cs, id).Some?
    ensures Created(cs + more, id) == Created(cs, id)
  {
    if more == [] {
      assert cs + more == cs;
    } else {
      assert (cs + more)[..|cs + more| - 1] == cs + more[..|more| - 1];
      StillCreated(cs, id, more[..|more| - 1]);
    }
  }

  lemma {:induction false} StillUntouched(cs: seq<Command>, id: Id, voter: Key, more: seq<Command>)
    requires ClosedAt(cs, id).None? && BallotOf(cs, id, voter).None?
    requires forall i :: 0 <= i < |more| ==> more[i].id == id ==> !more[i].Close? && !(more[i].Cast? && more[i].voter == voter)
    ensures ClosedAt(cs + more, id).None? && BallotOf(cs + more, id, voter).None?
  {
    if more == [] {
      assert cs + more == cs;
    } else {
      assert (cs + more)[..|cs + more| - 1] == cs + more[..|more| - 1];
      StillUntouched(cs, id, voter, more[..|more| - 1]);
    }
  }

  /**
   A proposal is open for its voting period, seven days if none is given: whatever else happens to it but its closing, a voter
   who has not voted can vote for exactly the listed options until exactly that long after the creation.
   */
  lemma OpenForItsPeriod(cs: seq<Command>, id: Id, title: string, description: string, kind: Kind, options: seq<Key>,
                         authorId: string, votingPeriod: int, created: int, more: seq<Command>, c: Command)
    requires Created(cs, id).None? && c.Cast? && c.id == id
    requires forall i :: 0 <= i < |more| ==> more[i].id == id ==> !more[i].Close? && !(more[i].Cast? && more[i].voter == c.voter)
    ensures var create := Create(id, MakeTerms(title, description, kind, options, authorId, votingPeriod, created));
            Answer(Run(map[], cs + [create] + more), c).Done? <==>
            c.option in options && c.now - created <= if votingPeriod == 0 then 604_800_000 else votingPeriod
  {
    var create := Create(id, MakeTerms(title, description, kind, options, authorId, votingPeriod, created));
    var start := cs + [create];
    assert start[..|cs|] == cs;
    BoxIsItsHistory(cs, id, c.voter);
    assert Created(start, id) == Some(create.terms) && ClosedAt(start, id).None? && BallotOf(start, id, c.voter).None?;
    StillCreated(start, id, more);
    StillUntouched(start, id, c.voter, more);
    VoteAnswer(start + more, c);
  }

  /** And at every later moment it has the terms that it was created with. */
  lemma CreatedAsGiven(cs: seq<Command>, id: Id, title: string, description: string, kind: Kind, options: seq<Key>,
                       authorId: string, votingPeriod: int, created: int, more: seq<Command>)
    requires Created(cs, id).None?
    ensures var create := Create(id, MakeTerms(title, description, kind, options, authorId, votingPeriod, created));
            var box := Run(map[], cs + [create] + more);
            id in box && box[id].terms.title == title && box[id].terms.description == description
            && box[id].terms.kind == kind && box[id].terms.options == options && box[id].terms.authorId == authorId
            && box[id].terms.createdAt == created && box[id].terms.endsAt == created + box[id].terms.votingPeriod
  {
    var create := Create(id, MakeTerms(title, description, kind, options, authorId, votingPeriod, created));
    assert (cs + [create])[..|cs|] == cs;
    StillCreated(cs + [create], id, more);
    BoxIsItsHistory(cs + [create] + more, id, NO_CONSENSUS);
  }

  // ---------- votes do not disturb each other ----------

  /** Of two votes by different voters that are each accepted, the second is still accepted after the first. */
  lemma VotesAreIndependent(box: Box, a: Command, b: Command)
    requires AllGood(box) && a.Cast? && b.Cast? && (a.id != b.id || a.voter != b.voter)
    requires Answer(box, a).Done?
    ensures Answer(Step(box, a), b) == Answer(box, b)
  {
    PutSound(box[a.id].votes, a.voter, Vote(a.option, a.weight, a.now));
  }

  /** Two accepted votes may come in either order: the box has the same ballots, and closing gives the same results and outcome. */
  lemma VoteOrderMakesNoDifference(box: Box, a: Command, b: Command, now: int)
    requires AllGood(box) && a.Cast? && b.Cast? && a.id == b.id && a.voter != b.voter
    requires Answer(box, a).Done? && Answer(box, b).Done?
    ensures var ab, ba := Step(Step(box, a), b), Step(Step(box, b), a);
            && a.id in ab && a.id in ba
            && (forall voter :: Get(ab[a.id].votes, voter) == Get(ba[a.id].votes, voter))
            && Step(ab, Close(a.id, now))[a.id].results == Step(ba, Close(a.id, now))[a.id].results
            && Step(ab, Close(a.id, now))[a.id].outcome == Step(ba, Close(a.id, now))[a.id].outcome
  {
    VotesAreIndependent(box, a, b);
    VotesAreIndependent(box, b, a);
    TwoBallots(box[a.id].votes, a, b);
    TwoBallots(box[a.id].votes, b, a);
    TallyIgnoresOrder(box[a.id].terms.options, Values(AfterBoth(box[a.id].votes, a, b)), Values(AfterBoth(box[a.id].votes, b, a)));
  }

  function AfterBoth(votes: Obj<Vote>, a: Command, b: Command): Obj<Vote>
    requires a.Cast? && b.Cast?
  {
    Put(Put(votes, a.voter, Vote(a.option, a.weight, a.now)), b.voter, Vote(b.option, b.weight, b.now))
  }

  lemma TwoBallots(votes: Obj<Vote>, a: Command, b: Command)
    requires a.Cast? && b.Cast? && a.voter != b.voter && WellOrdered(votes) && !Has(votes, a.voter) && !Has(votes, b.voter)
    ensures var v, w := Vote(a.option, a.weight, a.now), Vote(b.option, b.weight, b.now);
            && multiset(Values(AfterBoth(votes, a, b))) == multiset(Values(votes)) + multiset{v} + multiset{w}
            && forall voter :: Get(AfterBoth(votes, a, b), voter)
                            == if voter == b.voter then Some(w) else if voter == a.voter then Some(v) else Get(votes, voter)
  {
    var v, w := Vote(a.option, a.weight, a.now), Vote(b.option, b.weight, b.now);
    PutSound(votes, a.voter, v);
    NewBallot(votes, a.voter, v);
    PutSound(Put(votes, a.voter, v), b.voter, w);
    NewBallot(Put(votes, a.voter, v), b.voter, w);
  }

  // ---------- castVote itself ----------

  /** What a vote on a cached proposal answers in any reachable state of the system: exactly these checks, in this order. */
  lemma CastVoteAnswer(s: P.State, id: Id, voter: Key, option: Key, weight: real, now: int)
    requires P.Reachable(s) && id in s.cache
    ensures P.RefsOk(s) && P.Enabled(s, P.VoteCall(id, voter, option, weight, now)) && s.cache[id] < |s.heap|
    ensures var r, reply := s.heap[s.cache[id]], P.Next(s, P.VoteCall(id, voter, option, weight, now)).1;
            var active, open, first := r.status == Active, now <= r.terms.endsAt, Get(r.votes, voter) == None;
            && reply.Some?
            && (reply == Some(Done) <==> active && open && first && option in r.terms.options)
            && (reply == Some(NotActive) <==> !active)
            && (reply == Some(Ended) <==> active && !open)
            && (reply == Some(AlreadyVoted) <==> active && open && !first)
            && (reply == Some(InvalidOption) <==> active && open && first && option !in r.terms.options)
  {
    P.ReachableInv(s);
    P.ReachableCached(s, id);
  }
}
