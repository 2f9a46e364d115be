/**
 What the record of a finalized proposal says, in terms of its ballots: the published rows are the counts and shares of
 the votes, and the outcome of every kind of proposal but `'protocol'` is the plurality of the weight.
 */
module Outcomes {
  import opened Basics
  import opened JsObject
  import opened Tally
  import opened BallotBox

  /** Closed, and not by the two-thirds rule. */
  predicate Decided(r: Record) {
    r.status.Finalized? && !r.terms.kind.Protocol?
  }

  /** In every run a finalized record has the outcome of its own published rows. */
  lemma FinalizedOutcome(box: Box, cs: seq<Command>, id: Id)
    requires AllGood(box) && id in Run(box, cs) && Run(box, cs)[id].status.Finalized?
    ensures var r := Run(box, cs)[id];
            && Good(r) && r.results.Some?
            && (r.terms.kind.Protocol? ==> r.outcome == Some(Name("no consensus")))
            && (!r.terms.kind.Protocol? ==> Plurality(r.results.value.options, r.outcome))
  {
    RunKeepsGood(box, cs);
    OutcomeIsPlurality(Run(box, cs)[id]);
  }

  lemma OutcomeIsPlurality(r: Record)
    requires Good(r) && r.status.Finalized?
    ensures r.results.Some? && (r.terms.kind.Protocol? ==> r.outcome == Some(Name("no consensus")))
    ensures !r.terms.kind.Protocol? ==> Plurality(r.results.value.options, r.outcome)
  {
    LeaderIsPlurality(r.results.value.options);
  }

  /** The published row of each option: its votes, their weight, and its shares of all votes and of all weight. */
  lemma PublishedRows(r: Record, k: Key) returns (p: nat)
    requires Good(r) && r.status.Finalized? && k in r.terms.options
    ensures r.results.Some?
    ensures var vs, published := Values(r.votes), r.results.value;
            && p < |published.options| && published.options[p].key == k
            && (forall i :: 0 <= i < |published.options| && published.options[i].key == k ==> i == p)
            && var row := published.options[p].value;
               && row.Complete?
               && row.votes == |set i | 0 <= i < |vs| && vs[i].option == k|
               && row.weight == Total(vs, (v: Vote) => if v.option != k then 0.0 else if v.weight == 0.0 then 1.0 else v.weight)
               && published.totalVotes == |vs|
               && published.totalWeight == Total(vs, (v: Vote) => if v.weight == 0.0 then 1.0 else v.weight)
               && IsShare(row.percentage, row.votes as real, |vs| as real)
               && IsShare(row.weightedPercentage, row.weight, published.totalWeight)
  {
    var vs := Values(r.votes);
    p := RowOf(r.terms.options, vs, k);
    CountOfVotes(vs, k);
    WeightsOfVotes(vs, k);
    PercentIsShare(CountFor(vs, k) as real, |vs| as real);
    PercentIsShare(WeightFor(vs, k), TotalWeight(vs));
  }

  /** `x` percent of `whole` is `part`; of nothing it is zero. */
  predicate IsShare(x: real, part: real, whole: real) {
    if whole > 0.0 then x * whole == 100.0 * part else x == 0.0
  }

  lemma PercentIsShare(part: real, whole: real)
    ensures IsShare(Percent(part, whole), part, whole)
  {
    if whole > 0.0 {
      assert part / whole * whole == part;
    }
  }

  /** With positive weights nothing is chosen exactly if nobody has voted. */
  lemma NoOutcomeIffNoVotes(r: Record)
    requires Good(r) && Decided(r) && PositiveWeights(Values(r.votes))
    ensures r.outcome == None <==> r.votes == []
  {
    GoodIsCountable(r);
    OutcomeIsPlurality(r);
    var vs, rows := Values(r.votes), r.results.value.options;
    if vs == [] {
      assert forall i :: 0 <= i < |rows| ==> rows[i].value == RowFor(vs, OptionKeys(r.terms.options)[i]);
    } else {
      var p := RowOf(r.terms.options, vs, vs[0].option);
      PositiveSums(vs, vs[0].option);
      assert rows[p].value.weight > 0.0;
    }
  }

  /** An option with more than half of the weight is the outcome, wherever it is listed. */
  lemma MajorityDecides(r: Record, k: Key)
    requires Good(r) && Decided(r) && PositiveWeights(Values(r.votes)) && k in r.terms.options
    requires var vs := Values(r.votes);
             2.0 * Total(vs, (v: Vote) => if v.option != k then 0.0 else if v.weight == 0.0 then 1.0 else v.weight)
             > Total(vs, (v: Vote) => if v.weight == 0.0 then 1.0 else v.weight)
    ensures r.outcome == Some(k)
  {
    var vs := Values(r.votes);
    GoodIsCountable(r);
    WeightsOfVotes(vs, k);
    MajorityWins(r.terms.options, vs, k);
  }

  lemma Inserted<T>(xs: seq<T>, p: nat, x: T)
    requires p <= |xs|
    ensures multiset(xs[..p] + [x] + xs[p..]) == multiset(xs) + multiset{x}
  {
    assert xs == xs[..p] + xs[p..];
  }

  lemma ValuesInserted(o: Obj<Vote>, p: nat, e: Entry<Vote>)
    requires p <= |o|
    ensures Values(o[..p] + [e] + o[p..]) == Values(o)[..p] + [e.value] + Values(o)[p..]
  {
  }

  /** A new ballot is one more element of the multiset of votes, wherever the listing puts it. */
  lemma NewBallot(votes: Obj<Vote>, voter: Key, v: Vote)
    requires WellOrdered(votes) && !Has(votes, voter)
    ensures multiset(Values(Put(votes, voter, v))) == multiset(Values(votes)) + multiset{v}
  {
    hide WellOrdered, Put, Has;
    var p := PutNew(votes, voter, v);
    ValuesInserted(votes, p, Entry(voter, v));
    Inserted(Values(votes), p, v);
  }

  /** One more vote for what would be the outcome leaves it the outcome. */
  lemma VoteForOutcomeKeepsIt(box: Box, id: Id, voter: Key, option: Key, weight: real, now: int, end: int, later: int)
    requires AllGood(box) && Answer(box, Cast(id, voter, option, weight, now)).Done? && weight >= 0.0
    requires !box[id].terms.kind.Protocol? && Step(box, Close(id, end))[id].outcome == Some(option)
    ensures Step(Step(box, Cast(id, voter, option, weight, now)), Close(id, later))[id].outcome == Some(option)
  {
    var r, v := box[id], Vote(option, weight, now);
    NewBallot(r.votes, voter, v);
    VoteForWinnerKeepsIt(r.terms.options, Values(r.votes), Values(Put(r.votes, voter, v)), v);
  }
}
