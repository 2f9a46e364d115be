/**
 From the counters of the containers to the charges of the workloads: what a tick reports, and what a workload that
 exits after any number of ticks is charged, said in CPU time, memory and bytes.
 */
module Metering {
  import opened Basics
  import opened CreditProtocol
  import opened CreditLife
  import opened Credits
  import opened Charges
  import opened Executor

  // ---------- one report ----------

  /** Bytes received and sent over all networks of a container. */
  ghost function Bytes(networks: seq<(real, real)>): real {
    Total(networks, (n: (real, real)) => n.0) + Total(networks, (n: (real, real)) => n.1)
  }

  lemma {:induction false} TotalFirst<T(!new)>(xs: seq<T>, f: T -> real)
    requires xs != []
    ensures Total(xs, f) == f(xs[0]) + Total(xs[1..], f)
  {
    if |xs| > 1 {
      var front := xs[..|xs| - 1];
      TotalFirst(front, f);
      assert front[1..] == xs[1..][..|xs| - 2];
    }
  }

  lemma {:induction false} NetworkBytesAreBytes(networks: seq<(real, real)>)
    ensures NetworkBytes(networks) == Bytes(networks)
  {
    if networks != [] {
      NetworkBytesAreBytes(networks[1..]);
      TotalFirst(networks, (n: (real, real)) => n.0);
      TotalFirst(networks, (n: (real, real)) => n.1);
    }
  }

  /**
   The usage that a tick reports for a container: 15 seconds of its share of all processors and of its memory in
   megabytes, and the bytes its networks have moved, in gigabytes. Nothing is reported as stored.
   */
  lemma ReportIsUsage(s: Sample, cpus: nat)
    requires s.systemTotal != s.systemBefore
    ensures var u := Reported(ReportOf(s, cpus));
            && u.cpuSeconds * (s.systemTotal - s.systemBefore) == 15.0 * (s.cpuTotal - s.cpuBefore) * cpus as real
            && u.memoryMbSeconds * 1048576.0 == 15.0 * s.memoryUsage
            && u.bandwidthGb * 1073741824.0 == Bytes(s.networks)
            && u.storageGbHours == 0.0
  {
    NetworkBytesAreBytes(s.networks);
    var cpu, system := s.cpuTotal - s.cpuBefore, s.systemTotal - s.systemBefore;
    ShareOfTime(cpu, system, cpus as real);
  }

  lemma ShareOfTime(part: real, whole: real, n: real)
    requires whole != 0.0
    ensures part / whole * n * 15.0 * whole == 15.0 * part * n
  {
    var share := part / whole;
    assert share * whole == part;
    assert share * n * 15.0 * whole == share * whole * n * 15.0;
  }

  /** What such a sample costs, in thousandths of a credit. */
  ghost function SampleCost(s: Sample, cpus: nat): real
    requires s.systemTotal != s.systemBefore
  {
    150.0 * (s.cpuTotal - s.cpuBefore) * cpus as real / (s.systemTotal - s.systemBefore)
    + 15.0 * s.memoryUsage / 1048576.0 + 100.0 * Bytes(s.networks) / 1073741824.0
  }

  lemma ReportCosts(us: seq<Usage>, s: Sample, cpus: nat)
    requires s.systemTotal != s.systemBefore
    ensures Thousandths(us + [Reported(ReportOf(s, cpus))]) == Thousandths(us) + SampleCost(s, cpus)
  {
    var u := Reported(ReportOf(s, cpus));
    ThousandthsAppend(us, u);
    ReportIsUsage(s, cpus);
    Quotient(10.0 * u.cpuSeconds, 150.0 * (s.cpuTotal - s.cpuBefore) * cpus as real, s.systemTotal - s.systemBefore);
  }

  lemma Quotient(x: real, part: real, whole: real)
    requires whole != 0.0 && x * whole == part
    ensures x == part / whole
  {
    assert part / whole * whole == part;
  }

  /** A report raises the estimate by what its fields cost; a missing field counts as zero. */
  lemma ReportRaisesEstimate(s: State, id: TxId, r: Report)
    requires Shape(s) && Billed(s) && id in s.open
    ensures var tx, (s1, reply) := s.heap[s.open[id]], Next(s, Update(id, Reported(r)));
            && reply == Done && |s1.heap| == |s.heap|
            && 1000.0 * (s1.heap[s.open[id]].estimatedCredits - tx.estimatedCredits)
               == (if r.cpuSeconds.Some? then 10.0 * r.cpuSeconds.value else 0.0)
                + (if r.memoryMbSeconds.Some? then r.memoryMbSeconds.value else 0.0)
                + (if r.storageGbHours.Some? then 50.0 * r.storageGbHours.value else 0.0)
                + (if r.bandwidthGb.Some? then 100.0 * r.bandwidthGb.value else 0.0)
  {
    var e, ref := Update(id, Reported(r)), s.open[id];
    BilledStep(s, e);
    EstimateInThousandths(s, ref);
    EstimateInThousandths(Next(s, e).0, ref);
    ThousandthsAppend(s.history.updates[ref], Reported(r));
  }

  // ---------- from the start of a workload to its charge ----------

  /** A launched workload is tracked as running since then, for its consumer, and owes nothing yet. */
  lemma LaunchedIsRunning(j: Joint, w: WorkloadId, consumer: Node, now: int, node: Node)
    requires Possible(j, Action.Launch(w, consumer, now), node)
    ensures var j1 := Act(j, Action.Launch(w, consumer, now), node);
            && w in j1.tracked && w in j1.samples && j1.samples[w] == []
            && j1.tracked[w].consumerId == consumer && j1.tracked[w].startTime == now
            && j1.tracked[w].status == "running" && j1.tracked[w].exitCode == None && j1.tracked[w].endTime == None
            && j1.ledger.log == j.ledger.log
            && forall x :: x in j.tracked && x != w ==> x in j1.tracked && j1.tracked[x] == j.tracked[x]
  {
  }

  /** What happens while a workload runs: ticks, and operations on other workloads. */
  datatype Doing =
    | Ticking(ws: seq<WorkloadId>, stats: map<WorkloadId, Stats>, now: int)
    | Other(a: Action)

  ghost function AfterAll(j: Joint, ds: seq<Doing>, cpus: nat, node: Node): Joint {
    if ds == [] then j
    else
      var j1, d := AfterAll(j, ds[..|ds| - 1], cpus, node), ds[|ds| - 1];
      match d
      case Ticking(ws, stats, now) => if Proper(stats) then Ticked(j1, ws, Readings(stats, cpus), now) else j1
      case Other(a) => if Possible(j1, a, node) then Act(j1, a, node) else j1
  }

  /** A tick visits every tracked workload once, and there are statistics for each. */
  ghost predicate Whole(j: Joint, ws: seq<WorkloadId>, stats: map<WorkloadId, Stats>) {
    Proper(stats) && Distinct(ws) && (forall x :: x in ws <==> x in j.tracked) && j.tracked.Keys <= stats.Keys
  }

  /** The workload stays tracked: it has not exited, or could not be paid for, and no one else charges it. */
  ghost predicate Runs(j: Joint, ds: seq<Doing>, w: WorkloadId, cpus: nat, node: Node) {
    ds == []
    || var j1, d := AfterAll(j, ds[..|ds| - 1], cpus, node), ds[|ds| - 1];
       && Runs(j, ds[..|ds| - 1], w, cpus, node)
       && (d.Ticking? ==> Whole(j1, d.ws, d.stats) && w in d.stats && w in AfterAll(j, ds, cpus, node).tracked)
       && (d.Other? ==> d.a.w != w)
  }

  /** The costs of the samples that the ticks take of the workload. */
  ghost function Costs(ds: seq<Doing>, w: WorkloadId, cpus: nat): real {
    if ds == [] then 0.0
    else
      var d := ds[|ds| - 1];
      Costs(ds[..|ds| - 1], w, cpus)
      + if d.Ticking? && w in d.stats && Proper(d.stats) then SampleCost(d.stats[w].sample, cpus) else 0.0
  }

  /** Who pays for a tracked workload does not change, and an exit is recorded as what it was. */
  lemma VisitKeepsConsumer(j: Joint, w: WorkloadId, r: Reading, now: int, x: WorkloadId)
    requires Shape(j.ledger) && w in j.tracked && w in j.samples && x in j.tracked && x in Visited(j, w, r, now).tracked
    ensures var info := Visited(j, w, r, now).tracked[x];
            && info.consumerId == j.tracked[x].consumerId && info.transactionId == j.tracked[x].transactionId
            && (x == w && r.exit.Some? ==>
                  info.exitCode == r.exit && info.endTime == Some(now)
                  && info.status == if r.exit == Some(0) then "completed" else "failed")
  {
    hide Next, Completed;
  }

  lemma {:induction false} TickKeepsConsumer(j: Joint, ws: seq<WorkloadId>, readings: map<WorkloadId, Reading>, now: int,
                                             x: WorkloadId)
    requires x in j.tracked && x in Ticked(j, ws, readings, now).tracked
    ensures Ticked(j, ws, readings, now).tracked[x].consumerId == j.tracked[x].consumerId
  {
    hide Visited, Shape;
    if ws != [] {
      var front, w := ws[..|ws| - 1], ws[|ws| - 1];
      var j1 := Ticked(j, front, readings, now);
      if Shape(j1.ledger) && w in j1.tracked && w in j1.samples && w in readings {
        VisitUntracks(j1, w, readings[w], now, x);
        TickKeepsConsumer(j, front, readings, now, x);
        VisitKeepsConsumer(j1, w, readings[w], now, x);
      } else {
        TickKeepsConsumer(j, front, readings, now, x);
      }
    }
  }

  lemma VisitUntracks(j: Joint, w: WorkloadId, r: Reading, now: int, x: WorkloadId)
    requires Shape(j.ledger) && w in j.tracked && w in j.samples && x in Visited(j, w, r, now).tracked
    ensures x in j.tracked
  {
    hide Next, Completed;
  }

  lemma OtherKeeps(j: Joint, a: Action, w: WorkloadId, node: Node)
    requires Possible(j, a, node) && a.w != w && w in j.tracked && w in j.samples
    ensures var j1 := Act(j, a, node);
            w in j1.tracked && w in j1.samples && j1.tracked[w] == j.tracked[w] && j1.samples[w] == j.samples[w]
  {
    hide Next, Completed, Enabled;
  }

  /** The workload is tracked for this consumer, and its samples so far have these costs. */
  ghost predicate Owes(j: Joint, w: WorkloadId, consumer: Node, costs: real) {
    && w in j.tracked && w in j.samples
    && j.tracked[w].consumerId == consumer
    && Thousandths(j.samples[w]) == costs
  }

  lemma TickOwes(j: Joint, ws: seq<WorkloadId>, stats: map<WorkloadId, Stats>, now: int, w: WorkloadId, consumer: Node,
                 costs: real, cpus: nat, node: Node, owner: Node)
    requires Sound(j, node, owner) && Owes(j, w, consumer, costs) && Whole(j, ws, stats) && w in stats
    ensures var j1 := Ticked(j, ws, Readings(stats, cpus), now);
            && Sound(j1, node, owner) && w in j1.samples
            && Thousandths(j1.samples[w]) == costs + SampleCost(stats[w].sample, cpus)
            && j1.samples[w] == j.samples[w] + [Readings(stats, cpus)[w].usage]
            && (w in j1.tracked ==> j1.tracked[w].consumerId == consumer)
  {
    hide Sound, ReportOf, Thousandths, SampleCost;
    var readings := Readings(stats, cpus);
    SoundSamples(j, node, owner);
    TickedExactly(j, ws, readings, now, node, owner);
    ReportCosts(j.samples[w], stats[w].sample, cpus);
    if w in Ticked(j, ws, readings, now).tracked {
      TickKeepsConsumer(j, ws, readings, now, w);
    }
  }

  lemma {:induction false} RunOwes(j: Joint, ds: seq<Doing>, w: WorkloadId, consumer: Node, costs: real, cpus: nat,
                                   node: Node, owner: Node)
    requires Sound(j, node, owner) && Owes(j, w, consumer, costs) && Runs(j, ds, w, cpus, node)
    ensures Sound(AfterAll(j, ds, cpus, node), node, owner)
    ensures Owes(AfterAll(j, ds, cpus, node), w, consumer, costs + Costs(ds, w, cpus))
  {
    hide Sound, Thousandths, SampleCost, Act, Possible, Ticked;
    if ds != [] {
      var front, d := ds[..|ds| - 1], ds[|ds| - 1];
      var j1 := AfterAll(j, front, cpus, node);
      RunOwes(j, front, w, consumer, costs, cpus, node, owner);
      if d.Ticking? {
        TickOwes(j1, d.ws, d.stats, d.now, w, consumer, costs + Costs(front, w, cpus), cpus, node, owner);
      } else if Possible(j1, d.a, node) {
        ActSound(j1, d.a, node, owner);
        OtherKeeps(j1, d.a, w, node);
      }
    }
  }

  /**
   The charge of a workload that has been launched and sampled by any number of ticks, whatever other workloads did
   meanwhile, at the tick that finds it exited: it is untracked exactly if its consumer has, at its turn, the cost
   of all its samples, and then a payment of exactly that is in the log.
   */
  lemma ChargedForItsSamples(j: Joint, ds: seq<Doing>, ws: seq<WorkloadId>, stats: map<WorkloadId, Stats>, now: int,
                             w: WorkloadId, cpus: nat, node: Node, owner: Node) returns (amount: real, turn: nat)
    requires Sound(j, node, owner) && w in j.tracked && w in j.samples && j.samples[w] == [] && Runs(j, ds, w, cpus, node)
    requires Whole(AfterAll(j, ds, cpus, node), ws, stats) && w in stats && stats[w].exit.Some?
    ensures 1000.0 * amount == Costs(ds, w, cpus) + SampleCost(stats[w].sample, cpus)
    ensures w in AfterAll(j, ds, cpus, node).tracked && turn < |ws| && ws[turn] == w
    ensures var readings, j1 := Readings(stats, cpus), AfterAll(j, ds, cpus, node);
            var j2, atTurn := Ticked(j1, ws, readings, now), Ticked(j1, ws[..turn], readings, now);
            && (w !in j2.tracked <==> BalanceOf(atTurn.ledger.balances, j.tracked[w].consumerId) >= amount)
            && j1.ledger.log <= j2.ledger.log
            && (w !in j2.tracked ==>
                  Transfer(j.tracked[w].consumerId, node, amount, w, now) in j2.ledger.log[|j1.ledger.log|..])
  {
    hide Sound, Thousandths, SampleCost, Ticked, Shape;
    NothingOwed();
    RunOwes(j, ds, w, j.tracked[w].consumerId, 0.0, cpus, node, owner);
    amount, turn := FinalTick(AfterAll(j, ds, cpus, node), ws, stats, now, w, j.tracked[w].consumerId,
                              Costs(ds, w, cpus), cpus, node, owner);
  }

  lemma NothingOwed()
    ensures Thousandths([]) == 0.0
  {
  }

  lemma FinalTick(j: Joint, ws: seq<WorkloadId>, stats: map<WorkloadId, Stats>, now: int, w: WorkloadId, consumer: Node,
                  costs: real, cpus: nat, node: Node, owner: Node) returns (amount: real, turn: nat)
    requires Sound(j, node, owner) && Owes(j, w, consumer, costs) && Whole(j, ws, stats) && w in stats && stats[w].exit.Some?
    ensures 1000.0 * amount == costs + SampleCost(stats[w].sample, cpus)
    ensures turn < |ws| && ws[turn] == w
    ensures var readings := Readings(stats, cpus);
            var j2, atTurn := Ticked(j, ws, readings, now), Ticked(j, ws[..turn], readings, now);
            && (w !in j2.tracked <==> BalanceOf(atTurn.ledger.balances, consumer) >= amount)
            && j.ledger.log <= j2.ledger.log
            && (w !in j2.tracked ==> Transfer(consumer, node, amount, w, now) in j2.ledger.log[|j.ledger.log|..])
  {
    hide Sound, Thousandths, SampleCost, Ticked, Shape, ReportOf;
    var readings := Readings(stats, cpus);
    SoundSamples(j, node, owner);
    TickedExactly(j, ws, readings, now, node, owner);
    TickOwes(j, ws, stats, now, w, consumer, costs, cpus, node, owner);
    var samples := j.samples[w] + [readings[w].usage];
    amount := SumPrices(samples);
    PricesAreThousandths(samples);
    turn :| turn < |ws| && ws[turn] == w;
    UntrackedIffPaid(j, ws, turn, readings, now, node, owner);
  }
}
