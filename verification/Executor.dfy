/**
 The workload executor and the ledger it bills to. A container is a source of samples and exit codes.
 Operations do not overlap here; each runs from its call to its end.
 */
module Executor {
  import opened Basics
  import opened CreditProtocol
  import opened CreditLife
  import opened Credits
  import JsMap

  type WorkloadId = string

  datatype Info = Info(transactionId: TxId, consumerId: Node, startTime: int,
                       status: string, exitCode: Option<int>, endTime: Option<int>)

  /** What Docker reports about a container; counters in nanoseconds and bytes. */
  datatype Sample = Sample(cpuTotal: real, cpuBefore: real, systemTotal: real, systemBefore: real,
                           memoryUsage: real, networks: seq<(real, real)>)

  const MEGABYTE := 1048576.0
  const GIGABYTE := 1073741824.0

  function NetworkBytes(networks: seq<(real, real)>): real {
    if networks == [] then 0.0 else networks[0].0 + networks[0].1 + NetworkBytes(networks[1..])
  }

  /** The usage of the 15 seconds between two ticks. */
  function ReportOf(s: Sample, cpus: nat): Report
    requires s.systemTotal != s.systemBefore
  {
    var cpuUsage := (s.cpuTotal - s.cpuBefore) / (s.systemTotal - s.systemBefore) * cpus as real;
    Report(Some(cpuUsage * 15.0), Some(s.memoryUsage / MEGABYTE * 15.0), None, Some(NetworkBytes(s.networks) / GIGABYTE))
  }

  // ---------- the joint invariant ----------

  /** Every tracked workload has an open transaction of its own, which has received exactly the workload's samples. */
  ghost predicate Agree(s: State, tracked: map<WorkloadId, Info>, samples: map<WorkloadId, seq<Usage>>, node: Node) {
    Shape(s) && forall w :: w in tracked ==> w in samples && Has(s, w, tracked[w], samples[w], node)
  }

  ghost predicate Has(s: State, w: WorkloadId, info: Info, samples: seq<Usage>, node: Node)
    requires Shape(s)
  {
    var id := info.transactionId;
    && id in s.open && id.workloadId == w
    && s.heap[s.open[id]].consumerId == info.consumerId && s.heap[s.open[id]].providerId == node
    && s.history.updates[s.open[id]] == samples
  }

  /** Two tracked workloads never share a transaction. */
  lemma OwnTransaction(s: State, tracked: map<WorkloadId, Info>, samples: map<WorkloadId, seq<Usage>>,
                       node: Node, a: WorkloadId, b: WorkloadId)
    requires Agree(s, tracked, samples, node) && a in tracked && b in tracked && a != b
    ensures tracked[a].transactionId != tracked[b].transactionId
    ensures s.open[tracked[a].transactionId] != s.open[tracked[b].transactionId]
  {
    assert Has(s, a, tracked[a], samples[a], node) && Has(s, b, tracked[b], samples[b], node);
  }

  lemma AgreeStart(s: State, tracked: map<WorkloadId, Info>, samples: map<WorkloadId, seq<Usage>>, node: Node,
                   id: TxId, consumer: Node, info: Info)
    requires Agree(s, tracked, samples, node) && Enabled(s, Start(id, consumer, node)) && id.workloadId !in tracked
    requires info.transactionId == id && info.consumerId == consumer
    ensures Agree(Next(s, Start(id, consumer, node)).0, tracked[id.workloadId := info], samples[id.workloadId := []], node)
  {
    var s1, w := Next(s, Start(id, consumer, node)).0, id.workloadId;
    ShapeStep(s, Start(id, consumer, node));
    var tracked1, samples1 := tracked[w := info], samples[w := []];
    forall x | x in tracked1 ensures Has(s1, x, tracked1[x], samples1[x], node) {
      if x != w {
        assert Has(s, x, tracked[x], samples[x], node);
      }
    }
  }

  lemma AgreeUpdate(s: State, tracked: map<WorkloadId, Info>, samples: map<WorkloadId, seq<Usage>>, node: Node,
                    w: WorkloadId, usage: Usage)
    requires Agree(s, tracked, samples, node) && w in tracked
    ensures Next(s, Update(tracked[w].transactionId, usage)).1 == Done
    ensures Agree(Next(s, Update(tracked[w].transactionId, usage)).0, tracked, samples[w := samples[w] + [usage]], node)
  {
    var e := Update(tracked[w].transactionId, usage);
    var s1, more := Next(s, e).0, samples[w := samples[w] + [usage]];
    ShapeStep(s, e);
    assert Has(s, w, tracked[w], samples[w], node);
    forall x | x in tracked ensures Has(s1, x, tracked[x], more[x], node) {
      assert Has(s, x, tracked[x], samples[x], node);
      if x != w {
        OwnTransaction(s, tracked, samples, node, x, w);
      }
    }
  }

  /** The charge: exactly the price of the summed samples, moved once, and logged before the transaction's record. */
  lemma SettleEffect(s: State, tracked: map<WorkloadId, Info>, samples: map<WorkloadId, seq<Usage>>,
                     node: Node, w: WorkloadId, now: int)
    requires Agree(s, tracked, samples, node) && w in tracked && Billed(s) && s.settling == multiset{}
    ensures var id, (s1, reply) := tracked[w].transactionId, Completed(s, tracked[w].transactionId, now);
            var r, consumer, price := s.open[id], tracked[w].consumerId, SumPrices(samples[w]);
            && s1.settling == multiset{}
            && (reply.Done? <==> BalanceOf(s.balances, consumer) >= price)
            && (reply.Done? ==>
                  && s1.balances == Moved(s.balances, consumer, node, price)
                  && s1.log == s.log + [Transfer(consumer, node, price, w, now), Settled(r)]
                  && s1.open == s.open - {id})
            && (!reply.Done? ==> s1.balances == s.balances && s1.log == s.log && s1.open == s.open)
  {
    var r := s.open[tracked[w].transactionId];
    assert Has(s, w, tracked[w], samples[w], node);
    EstimateIsExact(s, r);
    assert s.heap[r].estimatedCredits == Price(s.heap[r].usage);
    CompletedIs(s, tracked[w].transactionId, now);
  }

  /** A completion does not touch the transactions of other workloads, nor its own if it fails. */
  lemma HasAfter(s: State, w: WorkloadId, id: TxId, x: WorkloadId, info: Info, samples: seq<Usage>, node: Node, now: int)
    requires Shape(s) && id in s.open && id.workloadId == w && Has(s, x, info, samples, node)
    requires x != w || !Completed(s, id, now).1.Done?
    requires Shape(Completed(s, id, now).0)
    ensures Has(Completed(s, id, now).0, x, info, samples, node)
  {
    CompletedIs(s, id, now);
  }

  lemma AgreeSettle(s: State, tracked: map<WorkloadId, Info>, samples: map<WorkloadId, seq<Usage>>, node: Node,
                    w: WorkloadId, now: int, after: map<WorkloadId, Info>)
    requires Agree(s, tracked, samples, node) && w in tracked
    requires after == if Completed(s, tracked[w].transactionId, now).1.Done? then tracked - {w} else tracked
    ensures Agree(Completed(s, tracked[w].transactionId, now).0, after, samples, node)
    ensures Completed(s, tracked[w].transactionId, now).0.settling == s.settling
  {
    var id := tracked[w].transactionId;
    CompletedShape(s, id, now);
    assert Has(s, w, tracked[w], samples[w], node);
    CompletedSettling(s, id, now);
    forall x | x in after ensures Has(Completed(s, id, now).0, x, after[x], samples[x], node) {
      assert Has(s, x, tracked[x], samples[x], node);
      HasAfter(s, w, id, x, tracked[x], samples[x], node, now);
    }
  }

  lemma CompletedSettling(s: State, id: TxId, now: int)
    requires Shape(s) && id in s.open
    ensures Completed(s, id, now).0.settling == s.settling
  {
    CompletedIs(s, id, now);
  }

  /** The joint state: the ledger, the tracked workloads, and the usage sampled for each workload so far. */
  datatype Joint = Joint(ledger: State, tracked: map<WorkloadId, Info>, samples: map<WorkloadId, seq<Usage>>)

  /** The ledger is in a state it can reach, nothing is suspended, and it agrees with what is tracked. */
  ghost predicate Sound(j: Joint, node: Node, owner: Node) {
    && Reachable(owner, j.ledger)
    && j.ledger.settling == multiset{}
    && Agree(j.ledger, j.tracked, j.samples, node)
  }

  function Started(j: Joint, w: WorkloadId, consumerId: Node, now: int, node: Node): Joint
    requires Shape(j.ledger) && Enabled(j.ledger, Start(TxId(w, now), consumerId, node))
  {
    Joint(Next(j.ledger, Start(TxId(w, now), consumerId, node)).0,
          j.tracked[w := Info(TxId(w, now), consumerId, now, "running", None, None)], j.samples[w := []])
  }

  lemma StartedSound(j: Joint, w: WorkloadId, consumerId: Node, now: int, node: Node, owner: Node)
    requires Sound(j, node, owner) && w !in j.tracked
    requires Enabled(j.ledger, Start(TxId(w, now), consumerId, node))
    ensures Shape(j.ledger) && Sound(Started(j, w, consumerId, now, node), node, owner)
  {
    var id := TxId(w, now);
    AgreeStart(j.ledger, j.tracked, j.samples, node, id, consumerId, Info(id, consumerId, now, "running", None, None));
    ReachableStep(owner, j.ledger, Start(id, consumerId, node));
  }

  /** One sample of a tracked workload. */
  function Sampled(j: Joint, w: WorkloadId, usage: Usage): Joint
    requires Shape(j.ledger) && w in j.tracked && w in j.samples
  {
    Joint(Next(j.ledger, Update(j.tracked[w].transactionId, usage)).0, j.tracked, j.samples[w := j.samples[w] + [usage]])
  }

  lemma SampledSound(j: Joint, w: WorkloadId, usage: Usage, node: Node, owner: Node)
    requires Sound(j, node, owner) && w in j.tracked
    ensures Shape(j.ledger) && w in j.samples && Sound(Sampled(j, w, usage), node, owner)
    ensures Next(j.ledger, Update(j.tracked[w].transactionId, usage)).1 == Done
    ensures Sampled(j, w, usage).ledger.balances == j.ledger.balances
    ensures Sampled(j, w, usage).ledger.log == j.ledger.log && Sampled(j, w, usage).ledger.open == j.ledger.open
  {
    AgreeUpdate(j.ledger, j.tracked, j.samples, node, w, usage);
    ReachableStep(owner, j.ledger, Update(j.tracked[w].transactionId, usage));
  }

  /** The completion of a workload's transaction; only if it succeeds the workload is no longer tracked. */
  function Charged(j: Joint, w: WorkloadId, now: int): (Joint, bool)
    requires Shape(j.ledger) && w in j.tracked
  {
    var (s, reply) := Completed(j.ledger, j.tracked[w].transactionId, now);
    (Joint(s, if reply.Done? then j.tracked - {w} else j.tracked, j.samples), reply.Done?)
  }

  lemma ChargedIs(j: Joint, w: WorkloadId, now: int, s: State, ok: bool)
    requires Shape(j.ledger) && w in j.tracked
    requires s == Completed(j.ledger, j.tracked[w].transactionId, now).0
    requires ok == Completed(j.ledger, j.tracked[w].transactionId, now).1.Done?
    ensures Charged(j, w, now) == (Joint(s, if ok then j.tracked - {w} else j.tracked, j.samples), ok)
  {
  }

  /** The charge is exactly the price of all samples, moved once, and logged before the transaction's record. */
  lemma ChargedExactly(j: Joint, w: WorkloadId, now: int, node: Node, owner: Node)
    requires Sound(j, node, owner) && w in j.tracked
    ensures Shape(j.ledger) && w in j.samples
    ensures var (j1, ok) := Charged(j, w, now);
            var info, price := j.tracked[w], SumPrices(j.samples[w]);
            && (ok <==> BalanceOf(j.ledger.balances, info.consumerId) >= price)
            && info.transactionId in j.ledger.open
            && (if ok then
                  && j1.ledger.balances == Moved(j.ledger.balances, info.consumerId, node, price)
                  && j1.ledger.log == j.ledger.log + [Transfer(info.consumerId, node, price, w, now),
                                                      Settled(j.ledger.open[info.transactionId])]
                  && j1.ledger.open == j.ledger.open - {info.transactionId}
                else j1.ledger.balances == j.ledger.balances && j1.ledger.log == j.ledger.log && j1.ledger.open == j.ledger.open)
  {
    var s, info := j.ledger, j.tracked[w];
    ReachableSound(owner, s);
    assert Has(s, w, info, j.samples[w], node);
    SettleEffect(s, j.tracked, j.samples, node, w, now);
  }

  lemma ChargedSound(j: Joint, w: WorkloadId, now: int, node: Node, owner: Node)
    requires Sound(j, node, owner) && w in j.tracked
    ensures Sound(Charged(j, w, now).0, node, owner)
  {
    ReachableCompleted(owner, j.ledger, j.tracked[w].transactionId, now);
    AgreeSettle(j.ledger, j.tracked, j.samples, node, w, now, Charged(j, w, now).0.tracked);
  }

  // ---------- whole runs ----------

  datatype Action =
    | Launch(w: WorkloadId, consumerId: Node, now: int)
    | Measure(w: WorkloadId, usage: Usage)
    | Mark(w: WorkloadId, status: string, exitCode: Option<int>, endTime: Option<int>)
    | Charge(w: WorkloadId, now: int)

  ghost predicate Possible(j: Joint, a: Action, node: Node) {
    && Shape(j.ledger)
    && match a
       case Launch(w, consumerId, now) => w !in j.tracked && Enabled(j.ledger, Start(TxId(w, now), consumerId, node))
       case Measure(w, _) => w in j.tracked && w in j.samples
       case Mark(w, _, _, _) => w in j.tracked
       case Charge(w, _) => w in j.tracked
  }

  function Act(j: Joint, a: Action, node: Node): Joint
    requires Possible(j, a, node)
  {
    match a
    case Launch(w, consumerId, now) => Started(j, w, consumerId, now, node)
    case Measure(w, usage) => Sampled(j, w, usage)
    case Mark(w, status, exitCode, endTime) =>
      j.(tracked := j.tracked[w := j.tracked[w].(status := status, exitCode := exitCode, endTime := endTime)])
    case Charge(w, now) => Charged(j, w, now).0
  }

  lemma MarkSound(j: Joint, a: Action, node: Node, owner: Node)
    requires Sound(j, node, owner) && Possible(j, a, node) && a.Mark?
    ensures Sound(Act(j, a, node), node, owner)
  {
    var j1 := Act(j, a, node);
    forall w | w in j1.tracked ensures w in j1.samples && Has(j1.ledger, w, j1.tracked[w], j1.samples[w], node) {
      assert Has(j.ledger, w, j.tracked[w], j.samples[w], node);
    }
  }

  lemma ActSound(j: Joint, a: Action, node: Node, owner: Node)
    requires Sound(j, node, owner) && Possible(j, a, node)
    ensures Sound(Act(j, a, node), node, owner)
  {
    match a
    case Launch(w, consumerId, now) => StartedSound(j, w, consumerId, now, node, owner);
    case Measure(w, usage) => SampledSound(j, w, usage, node, owner);
    case Mark(_, _, _, _) => MarkSound(j, a, node, owner);
    case Charge(w, now) => ChargedSound(j, w, now, node, owner);
  }

  ghost function Play(j: Joint, acts: seq<Action>, node: Node): Joint {
    if acts == [] then j
    else
      var j1, a := Play(j, acts[..|acts| - 1], node), acts[|acts| - 1];
      if Possible(j1, a, node) then Act(j1, a, node) else j1
  }

  ghost predicate Begins(j: Joint, owner: Node) {
    Reachable(owner, j.ledger) && j.ledger.settling == multiset{} && j.tracked == map[]
  }

  /** Over every run without overlapping operations the workloads and the ledger agree. */
  lemma {:induction false} PlaySound(j: Joint, acts: seq<Action>, node: Node, owner: Node)
    requires Begins(j, owner)
    ensures Sound(Play(j, acts, node), node, owner)
  {
    if acts == [] {
      ReachableShape(owner, j.ledger);
    } else {
      var front, a := acts[..|acts| - 1], acts[|acts| - 1];
      PlaySound(j, front, node, owner);
      if Possible(Play(j, front, node), a, node) {
        ActSound(Play(j, front, node), a, node, owner);
      }
    }
  }

  /** The executor can get into state `j`. */
  ghost predicate Played(j: Joint, node: Node, owner: Node) {
    exists j0, acts :: Begins(j0, owner) && j == Play(j0, acts, node)
  }

  lemma PlayedSound(j: Joint, node: Node, owner: Node)
    requires Played(j, node, owner)
    ensures Sound(j, node, owner)
  {
    var j0, acts :| Begins(j0, owner) && j == Play(j0, acts, node);
    PlaySound(j0, acts, node, owner);
  }

  lemma PlayedStep(j: Joint, a: Action, node: Node, owner: Node)
    requires Played(j, node, owner) && Possible(j, a, node)
    ensures Played(Act(j, a, node), node, owner)
  {
    hide Act, Possible, Begins;
    var j0, acts :| Begins(j0, owner) && j == Play(j0, acts, node);
    assert (acts + [a])[..|acts|] == acts;
    assert Act(j, a, node) == Play(j0, acts + [a], node);
  }

  // ---------- a tick of the statistics ----------

  /** What a tick finds out about one workload: its usage since the last tick, and its exit code if it has ended. */
  datatype Reading = Reading(usage: Usage, exit: Option<int>)

  function StatusOf(exitCode: int): string {
    if exitCode == 0 then "completed" else "failed"
  }

  function Ended(j: Joint, w: WorkloadId, status: string, exitCode: Option<int>, endTime: Option<int>): Joint
    requires w in j.tracked
  {
    j.(tracked := j.tracked[w := j.tracked[w].(status := status, exitCode := exitCode, endTime := endTime)])
  }

  /** The body of the tick for one workload. */
  function Visited(j: Joint, w: WorkloadId, r: Reading, now: int): Joint
    requires Shape(j.ledger) && w in j.tracked && w in j.samples
  {
    var j1 := Sampled(j, w, r.usage);
    ShapeStep(j.ledger, Update(j.tracked[w].transactionId, r.usage));
    if r.exit.None? then j1
    else Charged(Ended(j1, w, StatusOf(r.exit.value), r.exit, Some(now)), w, now).0
  }

  /** The state between the sample and the charge of an exited workload. */
  function Exited(j: Joint, w: WorkloadId, r: Reading, now: int): Joint
    requires Shape(j.ledger) && w in j.tracked && w in j.samples && r.exit.Some?
  {
    Ended(Sampled(j, w, r.usage), w, StatusOf(r.exit.value), r.exit, Some(now))
  }

  lemma ExitedSound(j: Joint, w: WorkloadId, r: Reading, now: int, node: Node, owner: Node)
    requires Sound(j, node, owner) && w in j.tracked && r.exit.Some?
    ensures Shape(j.ledger) && w in j.samples && Sound(Exited(j, w, r, now), node, owner)
  {
    SampledSound(j, w, r.usage, node, owner);
    ActSound(Sampled(j, w, r.usage), Action.Mark(w, StatusOf(r.exit.value), r.exit, Some(now)), node, owner);
  }

  lemma VisitedSound(j: Joint, w: WorkloadId, r: Reading, now: int, node: Node, owner: Node)
    requires Sound(j, node, owner) && w in j.tracked
    ensures Shape(j.ledger) && w in j.samples && Sound(Visited(j, w, r, now), node, owner)
  {
    hide Sound, Sampled, Charged;
    SampledSound(j, w, r.usage, node, owner);
    if r.exit.Some? {
      ExitedSound(j, w, r, now, node, owner);
      ChargedSound(Exited(j, w, r, now), w, now, node, owner);
    }
  }

  /** A sample alone moves no credits. */
  lemma SampledOnly(j: Joint, w: WorkloadId, usage: Usage)
    requires Shape(j.ledger) && w in j.tracked && w in j.samples
    ensures var j1 := Sampled(j, w, usage);
            j1.ledger.balances == j.ledger.balances && j1.ledger.log == j.ledger.log && j1.tracked == j.tracked
  {
  }

  /** What a tick does for one workload: `pays` says that it has exited and can be paid. */
  ghost predicate TickEffect(j: Joint, j1: Joint, w: WorkloadId, r: Reading, now: int, node: Node, pays: bool)
    requires w in j.tracked && w in j.samples
  {
    var consumer, price := j.tracked[w].consumerId, SumPrices(j.samples[w] + [r.usage]);
    && (pays <==> r.exit.Some? && BalanceOf(j.ledger.balances, consumer) >= price)
    && j1.samples == j.samples[w := j.samples[w] + [r.usage]]
    && j1.tracked.Keys == (if pays then j.tracked.Keys - {w} else j.tracked.Keys)
    && (forall x :: x in j1.tracked && x != w ==> j1.tracked[x] == j.tracked[x])
    && (if pays then Pays(j.ledger, j1.ledger, consumer, node, price, w, now) else Idle(j.ledger, j1.ledger))
  }

  /** One transfer of `price`, logged before the record of the transaction it pays. */
  ghost predicate Pays(s: State, s1: State, consumer: Node, node: Node, price: real, w: WorkloadId, now: int) {
    && s1.balances == Moved(s.balances, consumer, node, price)
    && |s1.log| == |s.log| + 2 && s.log < s1.log && s1.log[|s.log|] == Transfer(consumer, node, price, w, now)
    && s1.log[|s.log| + 1].Settled?
  }

  ghost predicate Idle(s: State, s1: State) {
    s1.balances == s.balances && s1.log == s.log
  }

  /** A tick charges an exited workload the price of all its samples, the one just taken included, if that can be paid. */
  lemma VisitedExactly(j: Joint, w: WorkloadId, r: Reading, now: int, node: Node, owner: Node) returns (pays: bool)
    requires Sound(j, node, owner) && w in j.tracked
    ensures Shape(j.ledger) && w in j.samples && TickEffect(j, Visited(j, w, r, now), w, r, now, node, pays)
  {
    if r.exit.None? {
      SampledSound(j, w, r.usage, node, owner);
      SampledEffect(j, w, r, now, node);
      pays := false;
    } else {
      ExitedSound(j, w, r, now, node, owner);
      ExitedIs(j, w, r, now);
      pays := ChargedEffect(j, Exited(j, w, r, now), w, r, now, node, owner);
    }
  }

  lemma SampledEffect(j: Joint, w: WorkloadId, r: Reading, now: int, node: Node)
    requires Shape(j.ledger) && w in j.tracked && w in j.samples && r.exit.None?
    ensures TickEffect(j, Sampled(j, w, r.usage), w, r, now, node, false)
  {
    SampledOnly(j, w, r.usage);
  }

  lemma ChargedEffect(j: Joint, j1: Joint, w: WorkloadId, r: Reading, now: int, node: Node, owner: Node) returns (pays: bool)
    requires w in j.tracked && w in j.samples && r.exit.Some? && OnlySampled(j, j1, w, r.usage)
    requires Sound(j1, node, owner) && w in j1.tracked
    ensures Shape(j1.ledger) && TickEffect(j, Charged(j1, w, now).0, w, r, now, node, pays)
  {
    var price;
    pays, price := ChargedPays(j1, w, now, node, owner);
    ExitEffect(j, j1, Charged(j1, w, now).0, w, r, now, node, pays, price);
  }

  lemma ExitedIs(j: Joint, w: WorkloadId, r: Reading, now: int)
    requires Shape(j.ledger) && w in j.tracked && w in j.samples && r.exit.Some?
    ensures OnlySampled(j, Exited(j, w, r, now), w, r.usage)
  {
    SampledOnly(j, w, r.usage);
  }

  ghost predicate OnlySampled(j: Joint, j1: Joint, w: WorkloadId, usage: Usage)
    requires w in j.tracked && w in j.samples
  {
    && Idle(j.ledger, j1.ledger)
    && j1.samples == j.samples[w := j.samples[w] + [usage]]
    && j1.tracked.Keys == j.tracked.Keys && j1.tracked[w].consumerId == j.tracked[w].consumerId
    && forall x :: x in j.tracked && x != w ==> j1.tracked[x] == j.tracked[x]
  }

  lemma ChargedPays(j: Joint, w: WorkloadId, now: int, node: Node, owner: Node) returns (pays: bool, price: real)
    requires Sound(j, node, owner) && w in j.tracked
    ensures Shape(j.ledger) && w in j.samples && price == SumPrices(j.samples[w])
    ensures pays <==> BalanceOf(j.ledger.balances, j.tracked[w].consumerId) >= price
    ensures var j1 := Charged(j, w, now).0;
            && j1.samples == j.samples && j1.tracked == (if pays then j.tracked - {w} else j.tracked)
            && if pays then Pays(j.ledger, j1.ledger, j.tracked[w].consumerId, node, price, w, now) else Idle(j.ledger, j1.ledger)
  {
    ChargedExactly(j, w, now, node, owner);
    pays, price := Charged(j, w, now).1, SumPrices(j.samples[w]);
  }

  lemma ExitEffect(j: Joint, j1: Joint, j2: Joint, w: WorkloadId, r: Reading, now: int, node: Node, pays: bool, price: real)
    requires w in j.tracked && w in j.samples && r.exit.Some? && OnlySampled(j, j1, w, r.usage)
    requires price == SumPrices(j1.samples[w])
    requires pays <==> BalanceOf(j1.ledger.balances, j1.tracked[w].consumerId) >= price
    requires j2.samples == j1.samples && j2.tracked == if pays then j1.tracked - {w} else j1.tracked
    requires if pays then Pays(j1.ledger, j2.ledger, j1.tracked[w].consumerId, node, price, w, now) else Idle(j1.ledger, j2.ledger)
    ensures TickEffect(j, j2, w, r, now, node, pays)
  {
    assert price == SumPrices(j.samples[w] + [r.usage]);
  }

  /** The tick over the workloads `ws`, one after the other. */
  ghost function Ticked(j: Joint, ws: seq<WorkloadId>, readings: map<WorkloadId, Reading>, now: int): Joint {
    if ws == [] then j
    else
      var j1, w := Ticked(j, ws[..|ws| - 1], readings, now), ws[|ws| - 1];
      if Shape(j1.ledger) && w in j1.tracked && w in j1.samples && w in readings then Visited(j1, w, readings[w], now) else j1
  }

  /** After the tick: `w` has its sample, and if it is no longer tracked its consumer has paid exactly the price of all of them. */
  ghost predicate TickDone(j: Joint, j1: Joint, w: WorkloadId, readings: map<WorkloadId, Reading>, now: int, node: Node)
    requires w in j.tracked && w in j.samples && w in readings && |j.ledger.log| <= |j1.ledger.log|
  {
    && w in j1.samples && j1.samples[w] == j.samples[w] + [readings[w].usage]
    && (w !in j1.tracked ==>
          && readings[w].exit.Some?
          && Transfer(j.tracked[w].consumerId, node, SumPrices(j1.samples[w]), w, now) in j1.ledger.log[|j.ledger.log|..])
  }

  ghost predicate TickOk(j: Joint, j1: Joint, ws: seq<WorkloadId>, readings: map<WorkloadId, Reading>, now: int, node: Node)
    requires forall w :: w in ws ==> w in j.tracked && w in j.samples && w in readings
  {
    && j.ledger.log <= j1.ledger.log
    && (forall w :: w in ws ==> TickDone(j, j1, w, readings, now, node))
    && (forall w :: w in j.tracked && w !in ws ==> w in j1.tracked && j1.tracked[w] == j.tracked[w])
    && (forall w :: w in j.samples && w !in ws ==> w in j1.samples && j1.samples[w] == j.samples[w])
    && (forall w :: w in j1.tracked ==> w in j.tracked)
  }

  lemma TickDoneStep(j: Joint, j1: Joint, j2: Joint, x: WorkloadId, w: WorkloadId, readings: map<WorkloadId, Reading>,
                     now: int, node: Node, pays: bool)
    requires x in j.tracked && x in j.samples && x in readings && w in readings && j.ledger.log <= j1.ledger.log
    requires w in j1.tracked && w in j1.samples && TickEffect(j1, j2, w, readings[w], now, node, pays)
    requires if x != w then TickDone(j, j1, x, readings, now, node)
             else j1.tracked[w] == j.tracked[w] && j1.samples[w] == j.samples[w]
    ensures j1.ledger.log <= j2.ledger.log && TickDone(j, j2, x, readings, now, node)
  {
    var old1, new1 := j1.ledger.log[|j.ledger.log|..], j2.ledger.log[|j.ledger.log|..];
    assert old1 <= new1;
    if x == w && pays {
      assert new1[|old1|] == j2.ledger.log[|j1.ledger.log|];
    }
  }

  lemma TickOkStep(j: Joint, j1: Joint, j2: Joint, ws: seq<WorkloadId>, w: WorkloadId, readings: map<WorkloadId, Reading>,
                   now: int, node: Node, pays: bool)
    requires forall x :: x in ws + [w] ==> x in j.tracked && x in j.samples && x in readings
    requires TickOk(j, j1, ws, readings, now, node) && w !in ws
    requires w in j1.tracked && w in j1.samples && TickEffect(j1, j2, w, readings[w], now, node, pays)
    ensures TickOk(j, j2, ws + [w], readings, now, node)
  {
    forall x | x in ws + [w] ensures TickDone(j, j2, x, readings, now, node) {
      TickDoneStep(j, j1, j2, x, w, readings, now, node, pays);
    }
  }

  /** A tick gives every tracked workload its sample; one that it untracks has exited and has been paid for. */
  lemma {:induction false} TickedExactly(j: Joint, ws: seq<WorkloadId>, readings: map<WorkloadId, Reading>,
                        now: int, node: Node, owner: Node)
    requires Sound(j, node, owner) && Distinct(ws)
    requires forall w :: w in ws ==> w in j.tracked && w in j.samples && w in readings
    ensures Sound(Ticked(j, ws, readings, now), node, owner)
    ensures TickOk(j, Ticked(j, ws, readings, now), ws, readings, now, node)
  {
    hide Sound, Visited;
    if ws != [] {
      var front, w := ws[..|ws| - 1], ws[|ws| - 1];
      assert ws == front + [w];
      TickedExactly(j, front, readings, now, node, owner);
      TickedStep(j, Ticked(j, front, readings, now), front, w, readings, now, node, owner);
    }
  }

  /** The workload has exited, and its consumer has the price of all its samples. */
  ghost predicate CanPay(s: State, consumerId: Node, samples: seq<Usage>, r: Reading) {
    r.exit.Some? && BalanceOf(s.balances, consumerId) >= SumPrices(samples + [r.usage])
  }

  /** A workload is untracked by the tick exactly if it has exited and its consumer could pay for all samples at its turn. */
  lemma {:induction false} UntrackedIffPaid(j: Joint, ws: seq<WorkloadId>, k: nat, readings: map<WorkloadId, Reading>,
                                            now: int, node: Node, owner: Node)
    requires Sound(j, node, owner) && Distinct(ws) && k < |ws|
    requires forall w :: w in ws ==> w in j.tracked && w in j.samples && w in readings
    ensures var w, turn := ws[k], Ticked(j, ws[..k], readings, now);
            w !in Ticked(j, ws, readings, now).tracked <==>
            CanPay(turn.ledger, j.tracked[w].consumerId, j.samples[w], readings[w])
    decreases |ws|
  {
    hide Sound, TickOk, Visited, CanPay, Ticked, Shape;
    var front, last := ws[..|ws| - 1], ws[|ws| - 1];
    assert ws == front + [last];
    TickedExactly(j, front, readings, now, node, owner);
    LastTurn(j, Ticked(j, front, readings, now), front, last, readings, now, node, owner);
    TickedMore(j, front, last, readings, now);
    if k < |front| {
      UntrackedIffPaid(j, front, k, readings, now, node, owner);
      assert front[..k] == ws[..k];
    }
  }

  lemma TickedMore(j: Joint, ws: seq<WorkloadId>, w: WorkloadId, readings: map<WorkloadId, Reading>, now: int)
    requires w in readings
    requires var j1 := Ticked(j, ws, readings, now); Shape(j1.ledger) && w in j1.tracked && w in j1.samples
    ensures Ticked(j, ws + [w], readings, now) == Visited(Ticked(j, ws, readings, now), w, readings[w], now)
  {
    assert (ws + [w])[..|ws|] == ws;
  }

  lemma LastTurn(j: Joint, j1: Joint, ws: seq<WorkloadId>, w: WorkloadId, readings: map<WorkloadId, Reading>,
                 now: int, node: Node, owner: Node)
    requires forall x :: x in ws + [w] ==> x in j.tracked && x in j.samples && x in readings
    requires Sound(j1, node, owner) && w !in ws && TickOk(j, j1, ws, readings, now, node)
    ensures Shape(j1.ledger) && w in j1.tracked && w in j1.samples && w in readings && w in j.tracked && w in j.samples
    ensures var j2 := Visited(j1, w, readings[w], now);
            && (w !in j2.tracked <==> CanPay(j1.ledger, j.tracked[w].consumerId, j.samples[w], readings[w]))
            && (forall x :: x != w ==> (x in j2.tracked <==> x in j1.tracked))
  {
    assert w in ws + [w];
    var pays := VisitedExactly(j1, w, readings[w], now, node, owner);
    TrackedAfter(j1, Visited(j1, w, readings[w], now), w, readings[w], now, node, pays);
  }

  lemma TrackedAfter(j: Joint, j1: Joint, w: WorkloadId, r: Reading, now: int, node: Node, pays: bool)
    requires w in j.tracked && w in j.samples && TickEffect(j, j1, w, r, now, node, pays)
    ensures w !in j1.tracked <==>
            r.exit.Some? && BalanceOf(j.ledger.balances, j.tracked[w].consumerId) >= SumPrices(j.samples[w] + [r.usage])
    ensures forall x :: x != w ==> (x in j1.tracked <==> x in j.tracked)
  {
    assert w in j1.tracked <==> w in j1.tracked.Keys;
    assert forall x :: x in j1.tracked <==> x in j1.tracked.Keys;
    assert forall x :: x in j.tracked <==> x in j.tracked.Keys;
  }

  /** The payments of a tick, in order: one for each workload that has exited and can be paid at its turn. */
  ghost function Bills(j: Joint, ws: seq<WorkloadId>, readings: map<WorkloadId, Reading>, now: int, node: Node): seq<LogEntry<nat>>
    requires forall w :: w in ws ==> w in j.tracked && w in j.samples && w in readings
  {
    if ws == [] then []
    else
      var front, w := ws[..|ws| - 1], ws[|ws| - 1];
      var consumer, samples := j.tracked[w].consumerId, j.samples[w];
      Bills(j, front, readings, now, node)
      + if CanPay(Ticked(j, front, readings, now).ledger, consumer, samples, readings[w])
        then [Transfer(consumer, node, SumPrices(samples + [readings[w].usage]), w, now)] else []
  }

  ghost function PayAll(balances: map<Node, real>, bills: seq<LogEntry<nat>>): map<Node, real>
    requires forall i :: 0 <= i < |bills| ==> bills[i].Transfer?
  {
    if bills == [] then balances
    else
      var e := bills[|bills| - 1];
      Moved(PayAll(balances, bills[..|bills| - 1]), e.fromNode, e.toNode, e.amount)
  }

  /** The ledger has made exactly these payments, each followed by the record of its transaction. */
  ghost predicate Made(s: State, s1: State, bills: seq<LogEntry<nat>>) {
    && (forall i :: 0 <= i < |bills| ==> bills[i].Transfer?)
    && s.log <= s1.log && |s1.log| == |s.log| + 2 * |bills|
    && (forall i :: 0 <= i < |bills| ==> s1.log[|s.log| + 2 * i] == bills[i] && s1.log[|s.log| + 2 * i + 1].Settled?)
    && s1.balances == PayAll(s.balances, bills)
  }

  lemma MadeOne(s: State, s1: State, s2: State, bills: seq<LogEntry<nat>>, consumer: Node, node: Node, price: real, w: WorkloadId, now: int)
    requires Made(s, s1, bills) && Pays(s1, s2, consumer, node, price, w, now)
    ensures Made(s, s2, bills + [Transfer(consumer, node, price, w, now)])
  {
    var more: seq<LogEntry<nat>> := bills + [Transfer(consumer, node, price, w, now)];
    assert more[..|bills|] == bills;
    forall i | 0 <= i < |more| ensures s2.log[|s.log| + 2 * i] == more[i] && s2.log[|s.log| + 2 * i + 1].Settled? {
      if i < |bills| {
        assert s2.log[|s.log| + 2 * i] == s1.log[|s.log| + 2 * i];
        assert s2.log[|s.log| + 2 * i + 1] == s1.log[|s.log| + 2 * i + 1];
      } else {
        assert |s.log| + 2 * i == |s1.log|;
      }
    }
  }

  /** A tick charges once, exactly: its payments and the balances after it are those of the bills, and nothing else. */
  lemma {:induction false} TickedPays(j: Joint, ws: seq<WorkloadId>, readings: map<WorkloadId, Reading>, now: int, node: Node, owner: Node)
    requires Sound(j, node, owner) && Distinct(ws)
    requires forall w :: w in ws ==> w in j.tracked && w in j.samples && w in readings
    ensures Made(j.ledger, Ticked(j, ws, readings, now).ledger, Bills(j, ws, readings, now, node))
  {
    hide Sound, TickOk, Visited, CanPay, Shape;
    if ws != [] {
      var front, w := ws[..|ws| - 1], ws[|ws| - 1];
      assert ws == front + [w];
      TickedPays(j, front, readings, now, node, owner);
      TickedExactly(j, front, readings, now, node, owner);
      LastBill(j, Ticked(j, front, readings, now), front, w, readings, Bills(j, front, readings, now, node), now, node, owner);
      TickedMore(j, front, w, readings, now);
    }
  }

  lemma LastBill(j: Joint, j1: Joint, ws: seq<WorkloadId>, w: WorkloadId, readings: map<WorkloadId, Reading>,
                 bills: seq<LogEntry<nat>>, now: int, node: Node, owner: Node)
    requires forall x :: x in ws + [w] ==> x in j.tracked && x in j.samples && x in readings
    requires Sound(j1, node, owner) && w !in ws && TickOk(j, j1, ws, readings, now, node)
    requires Made(j.ledger, j1.ledger, bills)
    ensures Shape(j1.ledger) && w in j1.tracked && w in j1.samples && w in readings && w in j.tracked && w in j.samples
    ensures var consumer, samples := j.tracked[w].consumerId, j.samples[w];
            Made(j.ledger, Visited(j1, w, readings[w], now).ledger,
                 bills + if CanPay(j1.ledger, consumer, samples, readings[w])
                         then [Transfer(consumer, node, SumPrices(samples + [readings[w].usage]), w, now)] else [])
  {
    assert w in ws + [w];
    var pays := VisitedExactly(j1, w, readings[w], now, node, owner);
    BillOf(j, j1, Visited(j1, w, readings[w], now), w, readings[w], bills, now, node, pays);
  }

  lemma BillOf(j: Joint, j1: Joint, j2: Joint, w: WorkloadId, r: Reading, bills: seq<LogEntry<nat>>, now: int, node: Node, pays: bool)
    requires w in j.tracked && w in j.samples && w in j1.tracked && w in j1.samples
    requires j1.tracked[w] == j.tracked[w] && j1.samples[w] == j.samples[w]
    requires Made(j.ledger, j1.ledger, bills) && TickEffect(j1, j2, w, r, now, node, pays)
    ensures var consumer, samples := j.tracked[w].consumerId, j.samples[w];
            Made(j.ledger, j2.ledger,
                 bills + if CanPay(j1.ledger, consumer, samples, r)
                         then [Transfer(consumer, node, SumPrices(samples + [r.usage]), w, now)] else [])
  {
    var consumer, price := j.tracked[w].consumerId, SumPrices(j.samples[w] + [r.usage]);
    if pays {
      MadeOne(j.ledger, j1.ledger, j2.ledger, bills, consumer, node, price, w, now);
    } else {
      assert bills + [] == bills;
    }
  }

  lemma TickedStep(j: Joint, j1: Joint, ws: seq<WorkloadId>, w: WorkloadId, readings: map<WorkloadId, Reading>,
                   now: int, node: Node, owner: Node)
    requires forall x :: x in ws + [w] ==> x in j.tracked && x in j.samples && x in readings
    requires Sound(j1, node, owner) && w !in ws
    requires TickOk(j, j1, ws, readings, now, node)
    ensures Shape(j1.ledger) && w in j1.tracked && w in j1.samples
    ensures Sound(Visited(j1, w, readings[w], now), node, owner)
    ensures TickOk(j, Visited(j1, w, readings[w], now), ws + [w], readings, now, node)
  {
    assert w in ws + [w];
    var pays := VisitedExactly(j1, w, readings[w], now, node, owner);
    VisitedSound(j1, w, readings[w], now, node, owner);
    TickOkStep(j, j1, Visited(j1, w, readings[w], now), ws, w, readings, now, node, pays);
  }

  /** A tracked workload that the tick has not reached yet is still tracked. */
  lemma StillTracked(j: Joint, ws: seq<WorkloadId>, w: WorkloadId, readings: map<WorkloadId, Reading>,
                     now: int, node: Node, owner: Node)
    requires Sound(j, node, owner) && Distinct(ws) && w in j.tracked && w !in ws
    requires forall x :: x in ws ==> x in j.tracked && x in readings
    ensures var j1 := Ticked(j, ws, readings, now); Shape(j1.ledger) && w in j1.tracked && w in j1.samples
  {
    SoundSamples(j, node, owner);
    TickedExactly(j, ws, readings, now, node, owner);
  }

  /** The samples that ticks take while the workload runs. */
  function AllSampled(j: Joint, w: WorkloadId, usages: seq<Usage>): (j1: Joint)
    requires Shape(j.ledger) && w in j.tracked && w in j.samples
    ensures Shape(j1.ledger) && j1.tracked == j.tracked && w in j1.samples
  {
    if usages == [] then j
    else
      var j1, u := AllSampled(j, w, usages[..|usages| - 1]), usages[|usages| - 1];
      ShapeStep(j1.ledger, Update(j1.tracked[w].transactionId, u));
      Sampled(j1, w, u)
  }

  /** All of them are charged at the end, and nothing else. */
  lemma {:induction false} AllSampledIs(j: Joint, w: WorkloadId, usages: seq<Usage>)
    requires Shape(j.ledger) && w in j.tracked && w in j.samples
    ensures var j1 := AllSampled(j, w, usages);
            && j1.samples == j.samples[w := j.samples[w] + usages]
            && j1.ledger.balances == j.ledger.balances && j1.ledger.log == j.ledger.log
  {
    if usages == [] {
      assert j.samples[w] + [] == j.samples[w];
    } else {
      var front, u := usages[..|usages| - 1], usages[|usages| - 1];
      AllSampledIs(j, w, front);
      SampledOnly(AllSampled(j, w, front), w, u);
      assert usages == front + [u];
      assert j.samples[w] + usages == j.samples[w] + front + [u];
    }
  }

  lemma {:induction false} AllSampledPlayed(j: Joint, w: WorkloadId, usages: seq<Usage>, node: Node, owner: Node)
    requires Played(j, node, owner) && Shape(j.ledger) && w in j.tracked && w in j.samples
    ensures Played(AllSampled(j, w, usages), node, owner)
  {
    hide Played, Sampled;
    if usages != [] {
      var front, u := usages[..|usages| - 1], usages[|usages| - 1];
      AllSampledPlayed(j, w, front, node, owner);
      PlayedStep(AllSampled(j, w, front), Action.Measure(w, u), node, owner);
    }
  }

  /** The end of a workload that was waited for. */
  function Finished(j: Joint, w: WorkloadId, usages: seq<Usage>, exit: int, now: int): (Joint, bool)
    requires Shape(j.ledger) && w in j.tracked && w in j.samples
  {
    Charged(Ended(AllSampled(j, w, usages), w, StatusOf(exit), Some(exit), Some(now)), w, now)
  }

  /** A workload that was waited for is charged exactly the price of all samples taken while it ran, if that can be paid. */
  lemma FinishedExactly(j: Joint, w: WorkloadId, usages: seq<Usage>, exit: int, now: int, node: Node, owner: Node)
    requires Played(j, node, owner) && w in j.tracked && w in j.samples && j.samples[w] == [] && Shape(j.ledger)
    ensures var (j1, ok) := Finished(j, w, usages, exit, now);
            var consumer, price := j.tracked[w].consumerId, SumPrices(usages);
            && (ok <==> BalanceOf(j.ledger.balances, consumer) >= price)
            && j1.tracked.Keys == (if ok then j.tracked.Keys - {w} else j.tracked.Keys)
            && if ok then Pays(j.ledger, j1.ledger, consumer, node, price, w, now) else Idle(j.ledger, j1.ledger)
  {
    hide Played, Charged, AllSampled, Sound, Sampled;
    var j1 := AllSampled(j, w, usages);
    var j2 := Ended(j1, w, StatusOf(exit), Some(exit), Some(now));
    AllSampledIs(j, w, usages);
    assert [] + usages == usages;
    AllSampledPlayed(j, w, usages, node, owner);
    PlayedStep(j1, Action.Mark(w, StatusOf(exit), Some(exit), Some(now)), node, owner);
    PlayedSound(j2, node, owner);
    FinishedPays(j, j2, w, usages, now, node, owner);
  }

  lemma FinishedPays(j: Joint, j2: Joint, w: WorkloadId, usages: seq<Usage>, now: int, node: Node, owner: Node)
    requires Sound(j2, node, owner) && w in j.tracked && w in j2.tracked && w in j2.samples && j2.samples[w] == usages
    requires Idle(j.ledger, j2.ledger) && j2.tracked.Keys == j.tracked.Keys
    requires j2.tracked[w].consumerId == j.tracked[w].consumerId
    ensures Shape(j2.ledger)
    ensures var (j3, ok) := Charged(j2, w, now);
            var consumer, price := j.tracked[w].consumerId, SumPrices(usages);
            && (ok <==> BalanceOf(j.ledger.balances, consumer) >= price)
            && j3.tracked.Keys == (if ok then j.tracked.Keys - {w} else j.tracked.Keys)
            && if ok then Pays(j.ledger, j3.ledger, consumer, node, price, w, now) else Idle(j.ledger, j3.ledger)
  {
    ChargedExactly(j2, w, now, node, owner);
  }

  lemma ExecutedPlayed(j: Joint, w: WorkloadId, consumerId: Node, now: int, node: Node, owner: Node, usages: seq<Usage>,
                       exit: Option<int>, later: int)
    requires Played(j, node, owner) && w !in j.tracked && Shape(j.ledger)
    requires Enabled(j.ledger, Start(TxId(w, now), consumerId, node)) && Shape(Started(j, w, consumerId, now, node).ledger)
    ensures var j1 := Started(j, w, consumerId, now, node);
            && Played(j1, node, owner) && (exit.Some? ==> Played(Finished(j1, w, usages, exit.value, later).0, node, owner))
  {
    hide Played, AllSampled, Charged;
    var j1 := Started(j, w, consumerId, now, node);
    PlayedStep(j, Action.Launch(w, consumerId, now), node, owner);
    if exit.Some? {
      var j2, status := AllSampled(j1, w, usages), StatusOf(exit.value);
      AllSampledPlayed(j1, w, usages, node, owner);
      PlayedStep(j2, Action.Mark(w, status, exit, Some(later)), node, owner);
      PlayedStep(Ended(j2, w, status, exit, Some(later)), Action.Charge(w, later), node, owner);
    }
  }

  lemma ChargedPlayed(j: Joint, w: WorkloadId, now: int, node: Node, owner: Node)
    requires Played(j, node, owner) && Shape(j.ledger) && w in j.tracked
    ensures Played(Charged(j, w, now).0, node, owner)
  {
    hide Played, Charged;
    PlayedStep(j, Action.Charge(w, now), node, owner);
  }

  lemma VisitedPlayed(j: Joint, w: WorkloadId, r: Reading, now: int, node: Node, owner: Node)
    requires Played(j, node, owner) && Shape(j.ledger) && w in j.tracked && w in j.samples
    ensures Played(Visited(j, w, r, now), node, owner)
  {
    hide Played, Charged;
    var j1 := Sampled(j, w, r.usage);
    ShapeStep(j.ledger, Update(j.tracked[w].transactionId, r.usage));
    PlayedStep(j, Action.Measure(w, r.usage), node, owner);
    if r.exit.Some? {
      PlayedStep(j1, Action.Mark(w, StatusOf(r.exit.value), r.exit, Some(now)), node, owner);
      ChargedPlayed(Ended(j1, w, StatusOf(r.exit.value), r.exit, Some(now)), w, now, node, owner);
    }
  }

  lemma {:induction false} TickedPlayed(j: Joint, ws: seq<WorkloadId>, readings: map<WorkloadId, Reading>,
                        now: int, node: Node, owner: Node)
    requires Played(j, node, owner)
    ensures Played(Ticked(j, ws, readings, now), node, owner)
  {
    hide Played, Visited;
    if ws != [] {
      var j1, w := Ticked(j, ws[..|ws| - 1], readings, now), ws[|ws| - 1];
      TickedPlayed(j, ws[..|ws| - 1], readings, now, node, owner);
      if Shape(j1.ledger) && w in j1.tracked && w in j1.samples && w in readings {
        VisitedPlayed(j1, w, readings[w], now, node, owner);
      }
    }
  }

  class WorkloadExecutor {
    const nodeId: Node
    const credits: CreditSystem
    var activeWorkloads: map<WorkloadId, Info>
    /** The iteration list of `activeWorkloads`. */
    var slots: JsMap.Slots<WorkloadId>
    /** The usage sampled for each workload, tracked or not. */
    ghost var samples: map<WorkloadId, seq<Usage>>

    ghost predicate Linked()
      reads this, credits, credits.objects
    {
      credits.Valid() && JsMap.Lists(slots, activeWorkloads.Keys)
    }

    ghost predicate Valid()
      reads this, credits, credits.objects
    {
      Linked() && Played(View(), nodeId, credits.nodeId)
    }

    ghost function View(): Joint
      reads this, credits, credits.objects
    {
      Joint(credits.View(), activeWorkloads, samples)
    }

    constructor (credits: CreditSystem)
      requires credits.Valid() && Reachable(credits.nodeId, credits.View()) && credits.settling == multiset{}
      ensures Valid() && this.credits == credits && nodeId == credits.nodeId && activeWorkloads == map[]
    {
      nodeId, this.credits, activeWorkloads, slots, samples := credits.nodeId, credits, map[], [], map[];
      new;
      assert View() == Play(View(), [], nodeId);
    }

    method Track(w: WorkloadId, info: Info)
      requires JsMap.Lists(slots, activeWorkloads.Keys)
      modifies this`activeWorkloads, this`slots
      ensures JsMap.Lists(slots, activeWorkloads.Keys)
      ensures activeWorkloads == old(activeWorkloads)[w := info] && slots == JsMap.Add(old(slots), w)
    {
      JsMap.AddLists(slots, activeWorkloads.Keys, w);
      assert activeWorkloads[w := info].Keys == activeWorkloads.Keys + {w};
      activeWorkloads, slots := activeWorkloads[w := info], JsMap.Add(slots, w);
    }

    method Untrack(w: WorkloadId)
      requires JsMap.Lists(slots, activeWorkloads.Keys)
      modifies this`activeWorkloads, this`slots
      ensures JsMap.Lists(slots, activeWorkloads.Keys)
      ensures activeWorkloads == old(activeWorkloads) - {w} && slots == JsMap.Erase(old(slots), w)
    {
      JsMap.EraseLists(slots, activeWorkloads.Keys, w);
      assert (activeWorkloads - {w}).Keys == activeWorkloads.Keys - {w};
      activeWorkloads, slots := activeWorkloads - {w}, JsMap.Erase(slots, w);
    }

    /** The start of a workload: its transaction is opened and it is tracked. */
    method Launch(w: WorkloadId, consumerId: Node, now: int)
      requires Linked() && Enabled(credits.View(), Start(TxId(w, now), consumerId, nodeId))
      modifies this, credits
      ensures Linked() && fresh(set x | x in credits.objects && x !in old(credits.objects))
      ensures Shape(old(credits.View())) && View() == Started(old(View()), w, consumerId, now, nodeId)
      ensures slots == JsMap.Add(old(slots), w)
    {
      hide CreditSystem.Valid, CreditSystem.View;
      LinkedShape();
      ghost var next := Started(View(), w, consumerId, now, nodeId);
      var transactionId := credits.StartResourceTracking(w, consumerId, nodeId, now);
      samples := samples[w := []];
      Track(w, Info(transactionId, consumerId, now, "running", None, None));
      assert View() == next;
    }

    lemma LinkedShape()
      requires Linked()
      ensures Shape(credits.View())
    {
    }

    method Settle(id: TxId, now: int) returns (ok: bool)
      requires Linked()
      modifies credits, credits.objects
      ensures Linked() && credits.objects == old(credits.objects) && Shape(old(credits.View()))
      ensures credits.View() == Completed(old(credits.View()), id, now).0
      ensures ok == Completed(old(credits.View()), id, now).1.Done?
    {
      var reply := credits.CompleteTransaction(id, now);
      ok := reply.Done?;
    }

    /** The transaction is completed and, if that succeeds, the workload is no longer tracked. */
    method Charge(w: WorkloadId, now: int) returns (ok: bool)
      requires Linked() && w in activeWorkloads
      modifies this`activeWorkloads, this`slots, credits, credits.objects
      ensures Linked() && credits.objects == old(credits.objects)
      ensures Shape(old(credits.View())) && (View(), ok) == Charged(old(View()), w, now)
      ensures slots == if ok then JsMap.Erase(old(slots), w) else old(slots)
    {
      hide CreditSystem.Valid, CreditSystem.View, Charged, Completed;
      ok := Settle(activeWorkloads[w].transactionId, now);
      ghost var ledger := credits.View();
      ChargedIs(old(View()), w, now, ledger, ok);
      if ok {
        Untrack(w);
        assert credits.Valid() && credits.View() == ledger;
      }
    }

    method Measure(w: WorkloadId, report: Report)
      requires Linked() && w in activeWorkloads && w in samples
      modifies this`samples, credits, credits.objects
      ensures Linked() && credits.objects == old(credits.objects)
      ensures Shape(old(credits.View())) && View() == Sampled(old(View()), w, Reported(report))
    {
      var reply := credits.UpdateResourceUsage(activeWorkloads[w].transactionId, report);
      samples := samples[w := samples[w] + [Reported(report)]];
    }

    method MarkExit(w: WorkloadId, exitCode: int, now: int)
      requires Linked() && w in activeWorkloads
      modifies this`activeWorkloads
      ensures Linked() && View() == Ended(old(View()), w, StatusOf(exitCode), Some(exitCode), Some(now))
    {
      var info := activeWorkloads[w];
      activeWorkloads := activeWorkloads[w := info.(status := StatusOf(exitCode), exitCode := Some(exitCode), endTime := Some(now))];
      assert activeWorkloads.Keys == old(activeWorkloads).Keys;
    }

    // ---------- operations ----------

    /**
     `executeWorkload` of a workload with a new id; with an exit code it is the variant that waits for the container
     to end, and `reports` are what ticks measure while it waits.
     */
    method ExecuteWorkload(w: WorkloadId, consumerId: Node, now: int, reports: seq<Report>, exit: Option<int>, later: int)
      returns (ok: bool)
      requires Valid() && w !in activeWorkloads && Enabled(credits.View(), Start(TxId(w, now), consumerId, nodeId))
      modifies this, credits, credits.objects
      ensures Valid() && Shape(old(credits.View()))
      ensures Shape(Started(old(View()), w, consumerId, now, nodeId).ledger)
      ensures var j1 := Started(old(View()), w, consumerId, now, nodeId);
              (View(), ok) == if exit.None? then (j1, true) else Finished(j1, w, Usages(reports), exit.value, later)
    {
      hide CreditSystem.Valid, CreditSystem.View, Played, Finished;
      LinkedShape();
      StartedShape(View(), w, consumerId, now, nodeId);
      ExecutedPlayed(View(), w, consumerId, now, nodeId, credits.nodeId, Usages(reports), exit, later);
      ok := Execute(w, consumerId, now, reports, exit, later);
    }

    method Execute(w: WorkloadId, consumerId: Node, now: int, reports: seq<Report>, exit: Option<int>, later: int)
      returns (ok: bool)
      requires Linked() && Enabled(credits.View(), Start(TxId(w, now), consumerId, nodeId))
      modifies this, credits, credits.objects
      ensures Linked() && Shape(old(credits.View()))
      ensures Shape(Started(old(View()), w, consumerId, now, nodeId).ledger)
      ensures var j1 := Started(old(View()), w, consumerId, now, nodeId);
              (View(), ok) == if exit.None? then (j1, true) else Finished(j1, w, Usages(reports), exit.value, later)
    {
      hide CreditSystem.Valid, CreditSystem.View;
      LinkedShape();
      StartedShape(View(), w, consumerId, now, nodeId);
      Launch(w, consumerId, now);
      ok := true;
      if exit.Some? {
        MeasureAll(w, reports);
        MarkExit(w, exit.value, later);
        ok := Charge(w, later);
      }
    }

    /** The ticks while a workload runs. */
    method MeasureAll(w: WorkloadId, reports: seq<Report>)
      requires Linked() && w in activeWorkloads && w in samples
      modifies this`samples, credits, credits.objects
      ensures Linked() && credits.objects == old(credits.objects) && Shape(old(credits.View()))
      ensures View() == AllSampled(old(View()), w, Usages(reports))
    {
      hide CreditSystem.Valid, CreditSystem.View, Sampled;
      LinkedShape();
      ghost var j := View();
      for i := 0 to |reports|
        invariant Linked() && credits.objects == old(credits.objects)
        invariant View() == AllSampled(j, w, Usages(reports[..i]))
      {
        assert w in View().tracked && w in View().samples;
        assert reports[..i + 1][..i] == reports[..i];
        assert Usages(reports[..i + 1])[..i] == Usages(reports[..i]);
        Measure(w, reports[i]);
      }
      assert reports[..|reports|] == reports;
    }

    /** `stopWorkload` of a tracked workload; any other is looked for among the containers and has nothing to settle. */
    method StopWorkload(w: WorkloadId, now: int) returns (ok: bool)
      requires Valid()
      modifies this`activeWorkloads, this`slots, credits, credits.objects
      ensures Valid() && credits.objects == old(credits.objects) && Shape(old(credits.View()))
      ensures (View(), ok) == if w in old(activeWorkloads) then Charged(old(View()), w, now) else (old(View()), false)
    {
      hide CreditSystem.Valid, CreditSystem.View, Played, Charged;
      LinkedShape();
      if w !in activeWorkloads {
        return false;
      }
      ChargedPlayed(View(), w, now, nodeId, credits.nodeId);
      ok := Charge(w, now);
    }

    /** The body of the tick for one workload; a settlement that fails is ignored and tried again by the next tick. */
    method Visit(w: WorkloadId, report: Report, exit: Option<int>, now: int)
      requires Linked() && w in activeWorkloads && w in samples
      modifies this, credits, credits.objects
      ensures Linked() && credits.objects == old(credits.objects) && Shape(old(credits.View()))
      ensures View() == Visited(old(View()), w, Reading(Reported(report), exit), now)
      ensures slots == old(slots) || slots == JsMap.Erase(old(slots), w)
      ensures w !in activeWorkloads ==> slots == JsMap.Erase(old(slots), w)
    {
      Measure(w, report);
      if exit.Some? {
        MarkExit(w, exit.value, now);
        var ok := Charge(w, now);
      }
    }

    /** The tick that began in state `j` has walked over the first `i` slots. */
    ghost predicate TickTo(i: nat, j: Joint, slots0: JsMap.Slots<WorkloadId>, readings: map<WorkloadId, Reading>, now: int)
      reads this, credits, credits.objects
    {
      && Linked()
      && i <= |slots| == |slots0|
      && (forall k :: i <= k < |slots| ==> slots[k] == slots0[k])
      && View() == Ticked(j, JsMap.Entries(slots0[..i]), readings, now)
    }

    method TickSlot(i: nat, cpus: nat, stats: map<WorkloadId, Stats>, now: int, ghost j: Joint,
                    ghost slots0: JsMap.Slots<WorkloadId>)
      requires Proper(stats) && TickTo(i, j, slots0, Readings(stats, cpus), now) && i < |slots|
      requires Sound(j, nodeId, credits.nodeId) && JsMap.Lists(slots0, j.tracked.Keys) && j.tracked.Keys <= stats.Keys
      modifies this, credits, credits.objects
      ensures TickTo(i + 1, j, slots0, Readings(stats, cpus), now) && credits.objects == old(credits.objects)
      ensures |slots| == |old(slots)|
    {
      hide Sound, Visited, ReportOf, Reported, Ticked, CreditSystem.Valid, CreditSystem.View;
      TickReady(j, slots0, i, Readings(stats, cpus), now, nodeId, credits.nodeId);
      if slots[i].None? {
        return;
      }
      var w := slots[i].value;
      Visit(w, ReportOf(stats[w].sample, cpus), stats[w].exit, now);
    }

    lemma TickStarts(readings: map<WorkloadId, Reading>, now: int)
      requires Linked()
      ensures TickTo(0, View(), slots, readings, now)
    {
      hide CreditSystem.Valid, CreditSystem.View;
    }

    lemma TickEnds(j: Joint, slots0: JsMap.Slots<WorkloadId>, readings: map<WorkloadId, Reading>, now: int)
      requires TickTo(|slots|, j, slots0, readings, now)
      ensures Linked() && View() == Ticked(j, JsMap.Entries(slots0), readings, now)
    {
      hide CreditSystem.Valid, CreditSystem.View, Ticked;
      assert slots0[..|slots|] == slots0;
    }

    /**
     The body of the statistics timer: every workload tracked at its start is visited once, although
     the loop deletes from the map it walks.
     */
    method Tick(cpus: nat, stats: map<WorkloadId, Stats>, now: int)
      requires Valid() && activeWorkloads.Keys <= stats.Keys && Proper(stats)
      modifies this, credits, credits.objects
      ensures Valid() && credits.objects == old(credits.objects)
      ensures View() == Ticked(old(View()), JsMap.Entries(old(slots)), Readings(stats, cpus), now)
    {
      hide CreditSystem.Valid, CreditSystem.View, Played, Sound, TickTo, ReportOf, Reported;
      ghost var j, slots0 := View(), slots;
      PlayedSound(j, nodeId, credits.nodeId);
      TickStarts(Readings(stats, cpus), now);
      var i := 0;
      while i < |slots|
        invariant i <= |slots| && TickTo(i, j, slots0, Readings(stats, cpus), now) && credits.objects == old(credits.objects)
      {
        TickSlot(i, cpus, stats, now, j, slots0);
        i := i + 1;
      }
      TickEnds(j, slots0, Readings(stats, cpus), now);
      TickedPlayed(j, JsMap.Entries(slots0), Readings(stats, cpus), now, nodeId, credits.nodeId);
    }
  }

  function Usages(reports: seq<Report>): (usages: seq<Usage>)
    ensures |usages| == |reports|
    ensures forall i :: 0 <= i < |reports| ==> usages[i] == Reported(reports[i])
  {
    seq(|reports|, i requires 0 <= i < |reports| => Reported(reports[i]))
  }

  /** What Docker says about a workload's container at a tick. */
  datatype Stats = Stats(sample: Sample, exit: Option<int>)

  ghost predicate Proper(stats: map<WorkloadId, Stats>) {
    forall w :: w in stats ==> stats[w].sample.systemTotal != stats[w].sample.systemBefore
  }

  ghost function Readings(stats: map<WorkloadId, Stats>, cpus: nat): map<WorkloadId, Reading>
    requires Proper(stats)
  {
    map w | w in stats :: Reading(Reported(ReportOf(stats[w].sample, cpus)), stats[w].exit)
  }

  /** The next slot is visited in a state in which its workload is still tracked. */
  lemma TickReady(j: Joint, slots: JsMap.Slots<WorkloadId>, i: nat, readings: map<WorkloadId, Reading>,
                  now: int, node: Node, owner: Node)
    requires Sound(j, node, owner) && JsMap.Lists(slots, j.tracked.Keys) && i < |slots| && j.tracked.Keys <= readings.Keys
    ensures var j1, j2 := Ticked(j, JsMap.Entries(slots[..i]), readings, now), Ticked(j, JsMap.Entries(slots[..i + 1]), readings, now);
            if slots[i].None? then j2 == j1
            else
              var w := slots[i].value;
              && Shape(j1.ledger) && w in j1.tracked && w in j1.samples && w in readings
              && j2 == Visited(j1, w, readings[w], now)
              && (forall k :: i < k < |slots| ==> slots[k] != Some(w))
  {
    hide Sound, Visited;
    JsMap.EntriesStep(slots, i);
    if slots[i].Some? {
      var ids, w := JsMap.Entries(slots[..i]), slots[i].value;
      JsMap.EntriesOf(slots, j.tracked.Keys, i);
      assert w !in ids by {
        assert forall k :: 0 <= k < i ==> slots[k] != slots[i];
      }
      StillTracked(j, ids, w, readings, now, node, owner);
      assert (ids + [w])[..|ids|] == ids;
    }
  }

  lemma SoundSamples(j: Joint, node: Node, owner: Node)
    requires Sound(j, node, owner)
    ensures forall w :: w in j.tracked ==> w in j.samples
  {
  }

  lemma StartedShape(j: Joint, w: WorkloadId, consumerId: Node, now: int, node: Node)
    requires Shape(j.ledger) && Enabled(j.ledger, Start(TxId(w, now), consumerId, node))
    ensures Shape(Started(j, w, consumerId, now, node).ledger)
  {
    ShapeStep(j.ledger, Start(TxId(w, now), consumerId, node));
  }
}
