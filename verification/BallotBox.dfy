/**
 The atomic ballot box: what governance promises its callers.
 Creating, voting and closing are single indivisible steps on a table of proposals.
 */
module BallotBox {
  import opened Basics
  import opened JsObject
  import opened Tally

  type Id = string

  /** The part of a proposal that is fixed when it is created. */
  datatype Terms = Terms(
    title: string, description: string, kind: Kind, options: seq<Key>, authorId: string,
    createdAt: int, votingPeriod: int, endsAt: int)

  datatype Status = Active | Finalized

  /** A proposal as it is written to the store. */
  datatype Record = Record(
    terms: Terms, votes: Obj<Vote>, status: Status,
    results: Option<Results>, outcome: Option<Key>, finalizedAt: Option<int>)

  type Box = map<Id, Record>

  datatype Reply = Done | NotFound | NotActive | Ended | AlreadyVoted | InvalidOption

  datatype Command =
    | Create(id: Id, terms: Terms)
    | Cast(id: Id, voter: Key, option: Key, weight: real, now: int)
    | Close(id: Id, now: int)

  /** Seven days, in milliseconds. */
  const DEFAULT_PERIOD := 7 * 24 * 60 * 60 * 1000

  function MakeTerms(title: string, description: string, kind: Kind, options: seq<Key>,
                     authorId: string, votingPeriod: int, now: int): (t: Terms)
    ensures t.endsAt - t.createdAt == t.votingPeriod != 0
  {
    var period := if votingPeriod == 0 then DEFAULT_PERIOD else votingPeriod;
    Terms(title, description, kind, options, authorId, now, period, now + period)
  }

  function Opened(terms: Terms): Record {
    Record(terms, [], Active, None, None, None)
  }

  /** The checks of a vote, in the order in which they are made. */
  function VoteReply(r: Record, voter: Key, option: Key, now: int): Reply {
    if !r.status.Active? then NotActive
    else if now > r.terms.endsAt then Ended
    else if Has(r.votes, voter) then AlreadyVoted
    else if option !in r.terms.options then InvalidOption
    else Done
  }

  function Voted(r: Record, voter: Key, option: Key, weight: real, now: int): Record {
    r.(votes := Put(r.votes, voter, Vote(option, weight, now)))
  }

  function Closed(r: Record, now: int): Record {
    var results := TallyOf(r.terms.options, Values(r.votes));
    r.(status := Finalized, results := Some(results),
       outcome := Outcome(results.options, r.terms.kind), finalizedAt := Some(now))
  }

  function Answer(box: Box, c: Command): Reply {
    if c.Create? then Done
    else if c.id !in box then NotFound
    else if c.Cast? then VoteReply(box[c.id], c.voter, c.option, c.now)
    else if box[c.id].status.Active? then Done
    else NotActive
  }

  /** A refused command changes nothing. */
  function Step(box: Box, c: Command): Box {
    match c
    case Create(id, terms) => if id in box then box else box[id := Opened(terms)]
    case Cast(id, voter, option, weight, now) =>
      if Answer(box, c).Done? then box[id := Voted(box[id], voter, option, weight, now)] else box
    case Close(id, now) =>
      if Answer(box, c).Done? then box[id := Closed(box[id], now)] else box
  }

  function Run(box: Box, cs: seq<Command>): Box {
    if cs == [] then box else Step(Run(box, cs[..|cs| - 1]), cs[|cs| - 1])
  }

  // ---------- what every run keeps ----------

  /** Results, outcome and closing time are there exactly when closed, and are the count of the votes. */
  ghost predicate Good(r: Record) {
    && WellOrdered(r.votes)
    && (forall i :: 0 <= i < |r.votes| ==>
          r.votes[i].value.option in r.terms.options && r.votes[i].value.timestamp <= r.terms.endsAt)
    && (r.status.Active? ==> r.results == None && r.outcome == None && r.finalizedAt == None)
    && (r.status.Finalized? ==>
          && r.results == Some(TallyOf(r.terms.options, Values(r.votes)))
          && r.outcome == Outcome(r.results.value.options, r.terms.kind)
          && r.finalizedAt.Some?)
  }

  ghost predicate AllGood(box: Box) {
    forall id :: id in box ==> Good(box[id])
  }

  /** Counting the votes of a good record cannot fail. */
  lemma GoodIsCountable(r: Record)
    requires Good(r)
    ensures Countable(r.terms.options, Values(r.votes))
  {
    assert forall i :: 0 <= i < |r.votes| ==> Values(r.votes)[i] == r.votes[i].value;
  }

  lemma VotedIsGood(r: Record, voter: Key, option: Key, weight: real, now: int)
    requires Good(r) && VoteReply(r, voter, option, now).Done?
    ensures Good(Voted(r, voter, option, weight, now))
  {
    var p := PutNew(r.votes, voter, Vote(option, weight, now));
    PutSound(r.votes, voter, Vote(option, weight, now));
  }

  lemma ClosedIsGood(r: Record, now: int)
    requires Good(r)
    ensures Good(Closed(r, now))
  {
  }

  lemma StepKeepsGood(box: Box, c: Command)
    requires AllGood(box)
    ensures AllGood(Step(box, c))
  {
    if c.Cast? && Answer(box, c).Done? {
      VotedIsGood(box[c.id], c.voter, c.option, c.weight, c.now);
    }
  }

  /** Every proposal reached by any run is good: in particular its published results are its votes' tally. */
  lemma {:induction false} RunKeepsGood(box: Box, cs: seq<Command>)
    requires AllGood(box)
    ensures AllGood(Run(box, cs))
  {
    if cs != [] {
      RunKeepsGood(box, cs[..|cs| - 1]);
      StepKeepsGood(Run(box, cs[..|cs| - 1]), cs[|cs| - 1]);
    }
  }

  /** What one record may become: its terms stay, ballots are added but never altered, closed is closed. */
  ghost predicate Grows(a: Record, b: Record) {
    && b.terms == a.terms
    && (a.status.Finalized? ==> b == a)
    && (forall v :: Has(a.votes, v) ==> Get(b.votes, v) == Get(a.votes, v))
  }

  lemma StepGrows(box: Box, c: Command, id: Id)
    requires AllGood(box) && id in box
    ensures id in Step(box, c) && Grows(box[id], Step(box, c)[id])
  {
    if c.Cast? && Answer(box, c).Done? && c.id == id {
      PutSound(box[id].votes, c.voter, Vote(c.option, c.weight, c.now));
    }
  }

  /** Over any run a closed proposal is frozen, and a cast ballot stays as it was cast. */
  lemma {:induction false} RunGrows(box: Box, cs: seq<Command>, id: Id)
    requires AllGood(box) && id in box
    ensures id in Run(box, cs) && Grows(box[id], Run(box, cs)[id])
  {
    if cs != [] {
      var front := cs[..|cs| - 1];
      RunGrows(box, front, id);
      RunKeepsGood(box, front);
      StepGrows(Run(box, front), cs[|cs| - 1], id);
      var a, b, c := box[id], Run(box, front)[id], Run(box, cs)[id];
      forall v | Has(a.votes, v) ensures Get(c.votes, v) == Get(a.votes, v) {
        assert Get(b.votes, v) == Get(a.votes, v);
        assert Has(b.votes, v);
      }
    }
  }

  /** An accepted ballot is in the votes of every later state, so also in the final count; the voter cannot vote again. */
  lemma AcceptedBallotCounts(box: Box, c: Command, cs: seq<Command>)
    requires AllGood(box) && c.Cast? && Answer(box, c).Done?
    ensures var later := Run(Step(box, c), cs);
            && c.id in later
            && Get(later[c.id].votes, c.voter) == Some(Vote(c.option, c.weight, c.now))
            && (forall again: Command :: again.Cast? && again.id == c.id && again.voter == c.voter ==> !Answer(later, again).Done?)
  {
    StepKeepsGood(box, c);
    PutSound(box[c.id].votes, c.voter, Vote(c.option, c.weight, c.now));
    RunGrows(Step(box, c), cs, c.id);
    assert Has(Step(box, c)[c.id].votes, c.voter);
  }

  // ---------- closing early ----------

  function Times(n: nat): (s: string)
    ensures |s| == n
  {
    if n == 0 then "" else "x" + Times(n - 1)
  }

  /** Longer than every name in the table. */
  function LongName(o: Obj<Vote>): (n: nat)
    ensures forall i :: 0 <= i < |o| && o[i].key.Name? ==> |o[i].key.text| < n
  {
    if o == [] then 0
    else
      var n := LongName(o[1..]);
      var k := if o[0].key.Name? && |o[0].key.text| >= n then |o[0].key.text| + 1 else n;
      assert forall i :: 0 < i < |o| ==> o[i] == o[1..][i - 1];
      k
  }

  /** Some vote on `id` is accepted at this time. */
  ghost predicate StillOpen(box: Box, id: Id, now: int) {
    exists c: Command :: c.Cast? && c.id == id && c.now == now && Answer(box, c).Done?
  }

  /**
   Closing does not ask whether voting has ended. A proposal that is closed could still have been voted on at that
   moment exactly if its end had not passed; then no vote on it is accepted any more.
   */
  lemma ClosedBeforeItsEnd(box: Box, id: Id, now: int)
    requires Answer(box, Close(id, now)).Done?
    ensures StillOpen(box, id, now) <==> now <= box[id].terms.endsAt && box[id].terms.options != []
    ensures forall c: Command :: c.Cast? && c.id == id ==> Answer(Step(box, Close(id, now)), c) == NotActive
  {
    var r := box[id];
    if now <= r.terms.endsAt && r.terms.options != [] {
      var c := Cast(id, Name(Times(LongName(r.votes))), r.terms.options[0], 1.0, now);
      assert !Has(r.votes, c.voter);
      assert Answer(box, c).Done?;
    }
  }

  lemma {:induction false} RunConcat(box: Box, a: seq<Command>, b: seq<Command>)
    ensures Run(box, a + b) == Run(Run(box, a), b)
  {
    if b == [] {
      assert a + b == a;
    } else {
      assert (a + b)[..|a + b| - 1] == a + b[..|b| - 1];
      RunConcat(box, a, b[..|b| - 1]);
    }
  }
}
