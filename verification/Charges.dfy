/**
 What is paid for what is used, without the price function: the totals of the reports that a transaction has received
 determine its estimate and the amount that its completion moves, in thousandths of a credit.
 */
module Charges {
  import opened Basics
  import opened CreditProtocol
  import opened CreditLife

  /** The rates: a second of CPU costs 10 thousandths, a megabyte-second 1, a gigabyte-hour stored 50, a gigabyte sent 100. */
  ghost function Thousandths(us: seq<Usage>): real {
    10.0 * Total(us, (u: Usage) => u.cpuSeconds) + Total(us, (u: Usage) => u.memoryMbSeconds)
    + 50.0 * Total(us, (u: Usage) => u.storageGbHours) + 100.0 * Total(us, (u: Usage) => u.bandwidthGb)
  }

  lemma {:induction false} PricesAreThousandths(us: seq<Usage>)
    ensures 1000.0 * SumPrices(us) == Thousandths(us)
  {
    if us != [] {
      PricesAreThousandths(us[..|us| - 1]);
    }
  }

  lemma ThousandthsAppend(us: seq<Usage>, u: Usage)
    ensures Thousandths(us + [u])
         == Thousandths(us) + 10.0 * u.cpuSeconds + u.memoryMbSeconds + 50.0 * u.storageGbHours + 100.0 * u.bandwidthGb
  {
    assert (us + [u])[..|us|] == us;
  }

  /** `amount` goes from one node to another, and no other balance changes; a node that pays itself only gains. */
  ghost predicate Moves(before: map<Node, real>, after: map<Node, real>, consumer: Node, provider: Node, amount: real) {
    && after.Keys == before.Keys + {consumer, provider}
    && after[provider] == BalanceOf(before, provider) + amount
    && (consumer != provider ==> after[consumer] == BalanceOf(before, consumer) - amount)
    && (forall n :: n in before && n != consumer && n != provider ==> after[n] == before[n])
  }

  /**
   What the first segment of a completion does: it succeeds exactly if the consumer has the amount, which then moves to the
   provider; the object is marked either way.
   */
  ghost predicate Settles(s: State, s1: State, reply: Reply, r: nat, amount: real, now: int)
    requires r < |s.heap|
  {
    var tx := s.heap[r];
    && (reply == Done <==> BalanceOf(s.balances, tx.consumerId) >= amount)
    && (reply == Done ==>
          && Moves(s.balances, s1.balances, tx.consumerId, tx.providerId, amount)
          && s1.log == s.log + [Transfer(tx.consumerId, tx.providerId, amount, tx.id.workloadId, now)])
    && (reply != Done ==> s1.balances == s.balances && s1.log == s.log)
    && |s1.heap| == |s.heap|
    && s1.heap[r] == tx.(completed := true, endTime := Some(now), finalCredits := Some(amount))
  }

  ghost predicate SettlesCall(s: State, id: TxId, now: int, amount: real)
    requires Shape(s) && id in s.open
  {
    var (s1, reply) := Next(s, CompleteCall(id, now));
    Settles(s, s1, reply, s.open[id], amount, now)
  }

  /** The usage that has been reported for an open transaction. */
  ghost function UsageOf(s: State, id: TxId): seq<Usage>
    requires Shape(s) && id in s.open
  {
    s.history.updates[s.open[id]]
  }

  /** The amount of the completion of an open transaction is determined by the usage that has been reported for it. */
  lemma CompletionCharges(s: State, id: TxId, now: int) returns (amount: real)
    requires Shape(s) && Billed(s) && id in s.open
    ensures 1000.0 * amount == Thousandths(UsageOf(s, id)) && SettlesCall(s, id, now, amount)
    ensures s.heap[s.open[id]].estimatedCredits == amount
  {
    hide Billed, Shape, Thousandths, SettlesCall, UsageOf;
    amount := EstimateOf(s, id);
    CallSettles(s, id, now, amount);
  }

  lemma EstimateOf(s: State, id: TxId) returns (amount: real)
    requires Shape(s) && Billed(s) && id in s.open
    ensures s.open[id] < |s.heap| && amount == s.heap[s.open[id]].estimatedCredits == Price(s.heap[s.open[id]].usage)
    ensures 1000.0 * amount == Thousandths(UsageOf(s, id))
  {
    hide Price, Thousandths;
    EstimateInThousandths(s, s.open[id]);
    amount := s.heap[s.open[id]].estimatedCredits;
  }

  lemma CallSettles(s: State, id: TxId, now: int, amount: real)
    requires Shape(s) && id in s.open && amount == Price(s.heap[s.open[id]].usage)
    ensures SettlesCall(s, id, now, amount)
  {
    hide Next, Moves, Attempt, Paid, Moved, Price;
    var r := s.open[id];
    CompleteCallIs(s, id, now);
    AttemptIs(s, r, now);
    PaidIs(Attempt(s, r, now), r, amount, now);
    MovedMoves(s.balances, s.heap[r].consumerId, s.heap[r].providerId, amount);
  }

  lemma AttemptIs(s: State, r: nat, now: int)
    requires Shape(s) && r < |s.heap|
    ensures var tx, s1 := s.heap[r], Attempt(s, r, now);
            && s1.balances == s.balances && s1.log == s.log && |s1.heap| == |s.heap|
            && s1.heap[r] == tx.(completed := true, endTime := Some(now), finalCredits := Some(Price(tx.usage)))
  {
    hide Price;
  }

  lemma PaidIs(s: State, r: nat, amount: real, now: int)
    requires r < |s.heap|
    ensures var tx, s1 := s.heap[r], Paid(s, r, amount, now);
            && s1.heap == s.heap && s1.balances == Moved(s.balances, tx.consumerId, tx.providerId, amount)
            && s1.log == s.log + [Transfer(tx.consumerId, tx.providerId, amount, tx.id.workloadId, now)]
  {
    hide Moved;
  }

  lemma MovedMoves(balances: map<Node, real>, a: Node, b: Node, amount: real)
    ensures Moves(balances, Moved(balances, a, b, amount), a, b, amount)
  {
  }

  /** The estimate, too, is that of all reported usage. */
  lemma EstimateInThousandths(s: State, r: nat)
    requires Billed(s) && r < |s.heap|
    ensures 1000.0 * s.heap[r].estimatedCredits == Thousandths(s.history.updates[r])
  {
    EstimateIsExact(s, r);
    PricesAreThousandths(s.history.updates[r]);
  }

  // ---------- from the start of a transaction to its completion ----------

  /** The usage that a run reports for a transaction. */
  ghost function ReportsFor(es: seq<Event>, id: TxId): seq<Usage> {
    if es == [] then []
    else
      var e := es[|es| - 1];
      ReportsFor(es[..|es| - 1], id) + if e.Update? && e.id == id then [e.usage] else []
  }

  /** Object `r` is the transaction, between these two parties, and while it is open it has received these reports. */
  ghost predicate Receives(s: State, id: TxId, r: nat, consumer: Node, provider: Node, us: seq<Usage>) {
    && Shape(s) && r < |s.heap|
    && s.heap[r].id == id && s.heap[r].consumerId == consumer && s.heap[r].providerId == provider
    && (id in s.open ==> s.open[id] == r && s.history.updates[r] == us)
  }

  /** Object `r` is still there, of the same transaction between the same parties. */
  ghost predicate SameParties(s: State, s1: State, r: nat)
    requires r < |s.heap|
  {
    && r < |s1.heap| && s1.heap[r].id == s.heap[r].id
    && s1.heap[r].consumerId == s.heap[r].consumerId && s1.heap[r].providerId == s.heap[r].providerId
  }

  lemma ObjectStays(s: State, e: Event, r: nat)
    requires Shape(s) && Enabled(s, e) && r < |s.heap|
    ensures SameParties(s, Next(s, e).0, r)
  {
    if e.CompleteCall? {
      CompletionKeepsParties(s, e.id, e.now, r);
    } else {
      OtherKeepsParties(s, e, r);
    }
  }

  lemma OtherKeepsParties(s: State, e: Event, r: nat)
    requires Shape(s) && Enabled(s, e) && r < |s.heap| && !e.CompleteCall?
    ensures SameParties(s, Next(s, e).0, r)
  {
    hide Price, Plus, BalanceOf;
  }

  lemma CompletionKeepsParties(s: State, id: TxId, now: int, r: nat)
    requires Shape(s) && r < |s.heap|
    ensures SameParties(s, Next(s, CompleteCall(id, now)).0, r)
  {
    hide Paid;
    if id in s.open {
      CompleteCallIs(s, id, now);
      PaidIs(Attempt(s, s.open[id], now), s.open[id], Price(s.heap[s.open[id]].usage), now);
    }
  }

  /** An open transaction stays open under its object or is closed, and takes exactly the reports that name it. */
  lemma OpenStays(s: State, e: Event, id: TxId, r: nat)
    requires Shape(s) && Enabled(s, e) && r < |s.heap| && s.heap[r].id == id && (id in s.open ==> s.open[id] == r)
    ensures var s1 := Next(s, e).0;
            id in s1.open ==>
              && id in s.open && s1.open[id] == r && r < |s1.history.updates|
              && s1.history.updates[r] == s.history.updates[r] + if e.Update? && e.id == id then [e.usage] else []
  {
    hide Price, Moved, BalanceOf, Plus;
    assert s.history.updates[r] + [] == s.history.updates[r];
  }

  lemma ReceivesStep(s: State, e: Event, id: TxId, r: nat, consumer: Node, provider: Node, us: seq<Usage>)
    requires Receives(s, id, r, consumer, provider, us) && Enabled(s, e)
    ensures Receives(Next(s, e).0, id, r, consumer, provider, us + if e.Update? && e.id == id then [e.usage] else [])
  {
    hide Next, Shape;
    ShapeStep(s, e);
    ObjectStays(s, e, r);
    OpenStays(s, e, id, r);
  }

  lemma {:induction false} RunReceives(s: State, es: seq<Event>, id: TxId, r: nat, consumer: Node, provider: Node)
    requires Receives(s, id, r, consumer, provider, [])
    ensures Receives(Reach(s, es), id, r, consumer, provider, ReportsFor(es, id))
  {
    hide Receives;
    if es != [] {
      var front, e := es[..|es| - 1], es[|es| - 1];
      RunReceives(s, front, id, r, consumer, provider);
      ReceivesShape(Reach(s, front), id, r, consumer, provider, ReportsFor(front, id));
      if Enabled(Reach(s, front), e) {
        ReceivesStep(Reach(s, front), e, id, r, consumer, provider, ReportsFor(front, id));
      } else {
        assert ReportsFor(front, id) + [] == ReportsFor(front, id);
      }
    }
  }

  lemma ReceivesShape(s: State, id: TxId, r: nat, consumer: Node, provider: Node, us: seq<Usage>)
    requires Receives(s, id, r, consumer, provider, us)
    ensures Shape(s)
  {
  }

  lemma StartReceives(s: State, id: TxId, consumer: Node, provider: Node)
    requires Shape(s) && Enabled(s, Start(id, consumer, provider))
    ensures Receives(Next(s, Start(id, consumer, provider)).0, id, |s.heap|, consumer, provider, [])
  {
    ShapeStep(s, Start(id, consumer, provider));
  }

  /**
   The bill of a workload: after whatever run since its start, its estimate and the charge of its completion are those of
   exactly the usage reported for it in that run, and the charge goes from its consumer to its provider.
   */
  lemma BilledForReports(node: Node, s: State, id: TxId, consumer: Node, provider: Node, es: seq<Event>, now: int)
    returns (amount: real)
    requires Reachable(node, s) && Shape(s) && Enabled(s, Start(id, consumer, provider))
    requires id in Reach(Next(s, Start(id, consumer, provider)).0, es).open
    ensures 1000.0 * amount == Thousandths(ReportsFor(es, id))
    ensures var s1 := Reach(Next(s, Start(id, consumer, provider)).0, es);
            && Shape(s1) && SettlesCall(s1, id, now, amount)
            && var tx := s1.heap[s1.open[id]];
               tx.id == id && tx.consumerId == consumer && tx.providerId == provider && tx.estimatedCredits == amount
  {
    hide Reachable, Thousandths, Next, SettlesCall, Billed, Enabled;
    ReceivedInRun(node, s, id, consumer, provider, es);
    amount := CompletionCharges(Reach(Next(s, Start(id, consumer, provider)).0, es), id, now);
  }

  lemma ReceivedInRun(node: Node, s: State, id: TxId, consumer: Node, provider: Node, es: seq<Event>)
    requires Reachable(node, s) && Shape(s) && Enabled(s, Start(id, consumer, provider))
    ensures var s1 := Reach(Next(s, Start(id, consumer, provider)).0, es);
            && Shape(s1) && Billed(s1)
            && Receives(s1, id, |s.heap|, consumer, provider, ReportsFor(es, id))
  {
    hide Reachable, Next, Billed, Receives;
    var start := Start(id, consumer, provider);
    ReachableStep(node, s, start);
    ReachableRun(node, Next(s, start).0, es);
    ReachableBilled(node, Reach(Next(s, start).0, es));
    StartReceives(s, id, consumer, provider);
    RunReceives(Next(s, start).0, es, id, |s.heap|, consumer, provider);
  }

  lemma {:induction false} ReachableRun(node: Node, s: State, es: seq<Event>)
    requires Reachable(node, s)
    ensures Reachable(node, Reach(s, es))
  {
    hide Reachable, Next;
    if es != [] {
      var front, e := es[..|es| - 1], es[|es| - 1];
      ReachableRun(node, s, front);
      ReachableShape(node, Reach(s, front));
      if Enabled(Reach(s, front), e) {
        ReachableStep(node, Reach(s, front), e);
      }
    }
  }

  lemma ReachableBilled(node: Node, s: State)
    requires Reachable(node, s)
    ensures Shape(s) && Billed(s)
  {
    ReachableSound(node, s);
  }

  // ---------- additions ----------

  /** An addition raises one balance by exactly its amount, from nothing if there was none. */
  lemma AdditionIsExact(s: State, n: Node, amount: real, reason: string, now: int)
    requires Shape(s)
    ensures var s1 := Next(s, Add(n, amount, reason, now)).0;
            && s1.balances.Keys == s.balances.Keys + {n}
            && s1.balances[n] == (if n in s.balances then s.balances[n] else 0.0) + amount
            && (forall m :: m in s.balances && m != n ==> s1.balances[m] == s.balances[m])
            && s1.log == s.log + [Addition(n, amount, reason, now)] && s1.open == s.open && s1.heap == s.heap
  {
  }

  /** An operation on a transaction that is not open, and so on any that has been settled, is refused and changes nothing. */
  lemma UnknownIsRefused(s: State, id: TxId, usage: Usage, now: int)
    requires Shape(s) && id !in s.open
    ensures Next(s, Update(id, usage)) == (s, NotFound) && Next(s, CompleteCall(id, now)) == (s, NotFound)
  {
  }
}
