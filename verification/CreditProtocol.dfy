/**
 The credit ledger as a transition system. Each operation is cut at its awaits; what matters is that a
 settlement moves the credits first and records and removes the transaction only after an await.
 A transaction object is a position in `heap`; the open set, the log and suspended settlements share it.
 */
module CreditProtocol {
  import opened Basics

  type Node = string

  datatype Usage = Usage(cpuSeconds: real, memoryMbSeconds: real, storageGbHours: real, bandwidthGb: real)

  const NO_USAGE := Usage(0.0, 0.0, 0.0, 0.0)

  /** A transaction id is made of the workload id and the time of the start. */
  datatype TxId = TxId(workloadId: string, startedAt: int)

  datatype Tx = Tx(
    id: TxId, consumerId: Node, providerId: Node, completed: bool, usage: Usage,
    estimatedCredits: real, endTime: Option<int>, finalCredits: Option<real>)

  /** `T` is how a log refers to a transaction: by reference in memory, by value on disk. */
  datatype LogEntry<+T> =
    | Transfer(fromNode: Node, toNode: Node, amount: real, workloadId: string, timestamp: int)
    | Addition(toNode: Node, amount: real, reason: string, timestamp: int)
    | Settled(tx: T)

  /** What has happened so far, in this life of the process and the ones before; nothing in the program reads it. */
  datatype History = History(
    opening: map<Node, real>,        // the balance each node started with
    updates: seq<seq<Usage>>,        // the updates each transaction has received
    billed: seq<Option<nat>>,        // how many of them its latest settlement attempt has priced
    payments: seq<Option<TxId>>,     // for each log entry: the transaction it pays
    carried: set<nat>,               // objects that stand for log entries of the loaded file
    overlapped: set<TxId>,           // transactions completed again while a completion was suspended
    interrupted: multiset<TxId>)     // one for each completion that was suspended at a save that was loaded again

  datatype State = State(
    heap: seq<Tx>,
    balances: map<Node, real>,
    log: seq<LogEntry<nat>>,       // transactions
    open: map<TxId, nat>,          // activeTransactions
    settling: multiset<nat>,       // settlements between the transfer and the removal
    history: History)

  datatype Event =
    | Start(id: TxId, consumerId: Node, providerId: Node)
    | Update(id: TxId, usage: Usage)
    | CompleteCall(id: TxId, now: int)
    | CompleteResume(ref: nat)
    | Add(node: Node, amount: real, reason: string, now: int)

  datatype Reply = Done | NotFound | Insufficient(has: real, needs: real)

  // ---------- prices ----------

  function Plus(a: Usage, b: Usage): Usage {
    Usage(a.cpuSeconds + b.cpuSeconds, a.memoryMbSeconds + b.memoryMbSeconds,
          a.storageGbHours + b.storageGbHours, a.bandwidthGb + b.bandwidthGb)
  }

  /** `_calculateCredits` */
  function Price(u: Usage): real {
    u.cpuSeconds * 0.01 + u.memoryMbSeconds * 0.001 + u.storageGbHours * 0.05 + u.bandwidthGb * 0.1
  }

  function SumUsage(us: seq<Usage>): Usage {
    if us == [] then NO_USAGE else Plus(SumUsage(us[..|us| - 1]), us[|us| - 1])
  }

  function SumPrices(us: seq<Usage>): real {
    if us == [] then 0.0 else SumPrices(us[..|us| - 1]) + Price(us[|us| - 1])
  }

  lemma {:induction false} PriceOfSum(us: seq<Usage>)
    ensures Price(SumUsage(us)) == SumPrices(us)
  {
    if us != [] {
      PriceOfSum(us[..|us| - 1]);
    }
  }

  lemma PricesAppend(us: seq<Usage>, u: Usage)
    ensures SumPrices(us + [u]) == SumPrices(us) + Price(u)
    ensures SumUsage(us + [u]) == Plus(SumUsage(us), u)
  {
    assert (us + [u])[..|us|] == us;
  }

  lemma {:induction false} PricesConcat(a: seq<Usage>, b: seq<Usage>)
    ensures SumPrices(a + b) == SumPrices(a) + SumPrices(b)
  {
    if b == [] {
      assert a + b == a;
    } else {
      assert (a + b)[..|a + b| - 1] == a + b[..|b| - 1];
      PricesConcat(a, b[..|b| - 1]);
    }
  }

  function Flatten(batches: seq<seq<Usage>>): seq<Usage> {
    if batches == [] then [] else Flatten(batches[..|batches| - 1]) + batches[|batches| - 1]
  }

  function SumEach(batches: seq<seq<Usage>>): seq<Usage> {
    if batches == [] then [] else SumEach(batches[..|batches| - 1]) + [SumUsage(batches[|batches| - 1])]
  }

  lemma BatchAppend(sums: seq<Usage>, flat: seq<Usage>, batch: seq<Usage>, sum: Usage)
    requires SumPrices(sums) == SumPrices(flat) && Price(sum) == SumPrices(batch)
    ensures SumPrices(sums + [sum]) == SumPrices(flat + batch)
  {
    PricesConcat(flat, batch);
    assert (sums + [sum])[..|sums|] == sums;
  }

  /** Reporting usage in batches is billed like reporting it piece by piece. */
  lemma {:induction false} BillingIgnoresBatching(batches: seq<seq<Usage>>)
    ensures SumPrices(SumEach(batches)) == SumPrices(Flatten(batches))
  {
    if batches != [] {
      var front, last := batches[..|batches| - 1], batches[|batches| - 1];
      BillingIgnoresBatching(front);
      PriceOfSum(last);
      BatchAppend(SumEach(front), Flatten(front), last, SumUsage(last));
    }
  }

  lemma {:induction false} PricesWithout(us: seq<Usage>, p: nat)
    requires p < |us|
    ensures SumPrices(us) == SumPrices(us[..p] + us[p + 1..]) + Price(us[p])
  {
    assert us == us[..p] + [us[p]] + us[p + 1..];
    PricesConcat(us[..p] + [us[p]], us[p + 1..]);
    PricesAppend(us[..p], us[p]);
    PricesConcat(us[..p], us[p + 1..]);
  }

  /** And the order of the reports makes no difference. */
  lemma {:induction false} BillingIgnoresOrder(a: seq<Usage>, b: seq<Usage>)
    requires multiset(a) == multiset(b)
    ensures SumPrices(a) == SumPrices(b)
  {
    SameLength(a, b);
    if a != [] {
      var p := WithoutLast(a, b);
      PricesWithout(b, p);
      BillingIgnoresOrder(a[..|a| - 1], b[..p] + b[p + 1..]);
    }
  }

  // ---------- steps ----------

  /** References point to objects, an open transaction is listed under its own id, histories have their lengths. */
  ghost predicate Shape(s: State) {
    var h := s.history;
    && |h.updates| == |h.billed| == |s.heap| && |h.payments| == |s.log|
    && (forall r :: r in h.carried ==> r < |s.heap|)
    && (forall id :: id in s.open ==> s.open[id] < |s.heap| && s.heap[s.open[id]].id == id)
    && (forall r :: r in s.settling ==> r < |s.heap|)
    && (forall i :: 0 <= i < |s.log| && s.log[i].Settled? ==> s.log[i].tx < |s.heap|)
  }

  /** A generated transaction id is new; a settlement goes on once its save is done. */
  predicate Enabled(s: State, e: Event) {
    match e
    case Start(id, _, _) => id !in s.open && forall r :: 0 <= r < |s.heap| ==> s.heap[r].id != id
    case CompleteResume(ref) => ref in s.settling
    case _ => true
  }

  /** A balance is made if there is none, with the given opening amount. */
  function Ensure(s: State, n: Node, amount: real): State {
    if n in s.balances then s
    else s.(balances := s.balances[n := amount],
            history := s.history.(opening := s.history.opening[n := amount]))
  }

  function BalanceOf(balances: map<Node, real>, n: Node): real {
    if n in balances then balances[n] else 0.0
  }

  /** The balances after `_transferCredits`: both are read before either is written. */
  function Moved(balances: map<Node, real>, a: Node, b: Node, amount: real): map<Node, real> {
    var x, y := BalanceOf(balances, a), BalanceOf(balances, b);
    balances[a := x - amount][b := y + amount]
  }

  function NewTx(id: TxId, consumerId: Node, providerId: Node): Tx {
    Tx(id, consumerId, providerId, false, NO_USAGE, 0.0, None, None)
  }

  function Opened(s: State, tx: Tx): State {
    var h := s.history;
    s.(heap := s.heap + [tx], open := s.open[tx.id := |s.heap|],
       history := h.(updates := h.updates + [[]], billed := h.billed + [None]))
  }

  function Used(tx: Tx, usage: Usage): Tx {
    var u := Plus(tx.usage, usage);
    tx.(usage := u, estimatedCredits := Price(u))
  }

  function Marked(tx: Tx, now: int): Tx {
    tx.(completed := true, endTime := Some(now), finalCredits := Some(Price(tx.usage)))
  }

  function Append(s: State, e: LogEntry<nat>, pays: Option<TxId>): State {
    s.(log := s.log + [e], history := s.history.(payments := s.history.payments + [pays]))
  }

  /** The settlement marks the transaction before it knows whether it can be paid. */
  function Attempt(s: State, r: nat, now: int): State
    requires Shape(s) && r < |s.heap|
  {
    s.(heap := s.heap[r := Marked(s.heap[r], now)],
       history := s.history.(
         billed := s.history.billed[r := Some(|s.history.updates[r]|)],
         overlapped := if r in s.settling then s.history.overlapped + {s.heap[r].id} else s.history.overlapped))
  }

  /** The transfer, once it is known that it can be paid. */
  function Paid(s: State, r: nat, amount: real, now: int): State
    requires r < |s.heap|
  {
    var tx := s.heap[r];
    var s1 := Ensure(Ensure(s, tx.consumerId, 0.0), tx.providerId, 0.0);
    Append(s1, Transfer(tx.consumerId, tx.providerId, amount, tx.id.workloadId, now), Some(tx.id))
      .(balances := Moved(s.balances, tx.consumerId, tx.providerId, amount), settling := s.settling + multiset{r})
  }

  function Next(s: State, e: Event): (State, Reply)
    requires Shape(s) && Enabled(s, e)
  {
    match e
    case Start(id, consumerId, providerId) =>
      (Opened(Ensure(Ensure(s, consumerId, 1000.0), providerId, 1000.0), NewTx(id, consumerId, providerId)), Done)
    case Update(id, usage) =>
      if id !in s.open then (s, NotFound)
      else
        var r := s.open[id];
        (s.(heap := s.heap[r := Used(s.heap[r], usage)],
            history := s.history.(updates := s.history.updates[r := s.history.updates[r] + [usage]])), Done)
    case CompleteCall(id, now) =>
      if id !in s.open then (s, NotFound)
      else
        var r := s.open[id];
        var amount, has := Price(s.heap[r].usage), BalanceOf(s.balances, s.heap[r].consumerId);
        var s1 := Attempt(s, r, now);
        if has < amount then (s1, Insufficient(has, amount)) else (Paid(s1, r, amount, now), Done)
    case CompleteResume(r) => (Recorded(s, r), Done)
    case Add(node, amount, reason, now) =>
      var s1 := Ensure(s, node, 0.0);
      (Append(s1, Addition(node, amount, reason, now), None)
         .(balances := s1.balances[node := s1.balances[node] + amount]), Done)
  }

  lemma ShapeEnsure(s: State, n: Node, amount: real)
    requires Shape(s)
    ensures Shape(Ensure(s, n, amount)) && Ensure(s, n, amount).heap == s.heap
  {
  }

  lemma ShapePaid(s: State, r: nat, amount: real, now: int)
    requires Shape(s) && r < |s.heap|
    ensures Shape(Paid(s, r, amount, now))
  {
    ShapeEnsure(s, s.heap[r].consumerId, 0.0);
    ShapeEnsure(Ensure(s, s.heap[r].consumerId, 0.0), s.heap[r].providerId, 0.0);
  }

  lemma ShapeOpened(s: State, tx: Tx)
    requires Shape(s)
    ensures Shape(Opened(s, tx))
  {
  }

  lemma ShapeStep(s: State, e: Event)
    requires Shape(s) && Enabled(s, e)
    ensures Shape(Next(s, e).0)
  {
    match e
    case Start(id, a, b) =>
      ShapeEnsure(s, a, 1000.0);
      ShapeEnsure(Ensure(s, a, 1000.0), b, 1000.0);
      ShapeOpened(Ensure(Ensure(s, a, 1000.0), b, 1000.0), NewTx(id, a, b));
    case Update(_, _) =>
    case CompleteCall(id, now) =>
      if id in s.open {
        assert Shape(Attempt(s, s.open[id], now));
        ShapePaid(Attempt(s, s.open[id], now), s.open[id], Price(s.heap[s.open[id]].usage), now);
      }
    case CompleteResume(r) =>
    case Add(node, _, _, _) => ShapeEnsure(s, node, 0.0);
  }

  /** A completion that nothing interleaves with. */
  function Completed(s: State, id: TxId, now: int): (State, Reply)
    requires Shape(s)
  {
    var (s1, reply) := Next(s, CompleteCall(id, now));
    if reply.Done? then (Recorded(s1, s.open[id]), reply) else (s1, reply)
  }

  /** The second half of a completion. */
  function Recorded(s: State, r: nat): State
    requires r < |s.heap|
  {
    Append(s, Settled(r), None).(open := s.open - {s.heap[r].id}, settling := s.settling - multiset{r})
  }

  lemma CompleteCallIs(s: State, id: TxId, now: int)
    requires Shape(s) && id in s.open
    ensures var r, amount, has := s.open[id], Price(s.heap[s.open[id]].usage), BalanceOf(s.balances, s.heap[s.open[id]].consumerId);
            Next(s, CompleteCall(id, now)) == if has < amount then (Attempt(s, r, now), Insufficient(has, amount))
                                              else (Paid(Attempt(s, r, now), r, amount, now), Done)
  {
  }

  lemma CompletedShape(s: State, id: TxId, now: int)
    requires Shape(s)
    ensures Shape(Completed(s, id, now).0)
    ensures var (s1, reply) := Next(s, CompleteCall(id, now));
            reply.Done? ==> Shape(s1) && Enabled(s1, CompleteResume(s.open[id]))
                            && Completed(s, id, now).0 == Next(s1, CompleteResume(s.open[id])).0
  {
    var (s1, reply) := Next(s, CompleteCall(id, now));
    ShapeStep(s, CompleteCall(id, now));
    if reply.Done? {
      ShapeStep(s1, CompleteResume(s.open[id]));
    }
  }

  /** What an uninterrupted completion of an open transaction changes. */
  lemma CompletedIs(s: State, id: TxId, now: int)
    requires Shape(s) && id in s.open
    ensures var r, amount, has := s.open[id], Price(s.heap[s.open[id]].usage), BalanceOf(s.balances, s.heap[s.open[id]].consumerId);
            var tx, (s1, reply) := s.heap[r], Completed(s, id, now);
            && s1.heap == s.heap[r := Marked(tx, now)]
            && s1.history.updates == s.history.updates
            && s1.settling == s.settling
            && reply == (if has < amount then Insufficient(has, amount) else Done)
            && (if reply.Done? then
                  && s1.open == s.open - {id}
                  && s1.balances == Moved(s.balances, tx.consumerId, tx.providerId, amount)
                  && s1.log == s.log + [Transfer(tx.consumerId, tx.providerId, amount, id.workloadId, now), Settled(r)]
                else s1.open == s.open && s1.balances == s.balances && s1.log == s.log)
  {
    assert s.settling + multiset{s.open[id]} - multiset{s.open[id]} == s.settling;
  }

  // ---------- the audit ----------

  /** What an entry is meant to do to the balance of `n`. */
  function Effect<T>(e: LogEntry<T>, n: Node): real {
    match e
    case Transfer(a, b, amount, _, _) => (if b == n then amount else 0.0) - (if a == n then amount else 0.0)
    case Addition(b, amount, _, _) => if b == n then amount else 0.0
    case Settled(_) => 0.0
  }

  function Replay<T>(log: seq<LogEntry<T>>, n: Node): real {
    if log == [] then 0.0 else Replay(log[..|log| - 1], n) + Effect(log[|log| - 1], n)
  }

  /** What `n` has transferred to itself. */
  function SelfPaid<T>(log: seq<LogEntry<T>>, n: Node): real {
    if log == [] then 0.0
    else
      var e := log[|log| - 1];
      SelfPaid(log[..|log| - 1], n) + if e.Transfer? && e.fromNode == n && e.toNode == n then e.amount else 0.0
  }

  lemma LogAppend<T>(log: seq<LogEntry<T>>, e: LogEntry<T>, n: Node)
    ensures Replay(log + [e], n) == Replay(log, n) + Effect(e, n)
    ensures SelfPaid(log + [e], n) == SelfPaid(log, n) + if e.Transfer? && e.fromNode == n && e.toNode == n then e.amount else 0.0
  {
    assert (log + [e])[..|log|] == log;
  }

  /** Every balance is its opening amount plus the replay of the log, plus what the node paid to itself. */
  ghost predicate Audit<T>(balances: map<Node, real>, log: seq<LogEntry<T>>, opening: map<Node, real>) {
    && balances.Keys == opening.Keys
    && forall n :: n in balances ==> balances[n] == opening[n] + Replay(log, n) + SelfPaid(log, n)
  }

  /** Nothing is logged about a node before it has a balance. */
  ghost predicate Mentions<T>(balances: map<Node, real>, log: seq<LogEntry<T>>) {
    forall n :: n !in balances ==> Replay(log, n) == 0.0 && SelfPaid(log, n) == 0.0
  }

  ghost predicate Audited(s: State) {
    Audit(s.balances, s.log, s.history.opening) && Mentions(s.balances, s.log)
  }

  lemma EnsureAudited(s: State, n: Node, amount: real)
    requires Audited(s)
    ensures Audited(Ensure(s, n, amount))
  {
  }

  /** A transfer keeps the audit, even one from a node to itself: that is what `SelfPaid` accounts for. */
  lemma MovedAudit<T>(balances: map<Node, real>, log: seq<LogEntry<T>>, opening: map<Node, real>, e: LogEntry<T>)
    requires Audit(balances, log, opening) && Mentions(balances, log)
    requires e.Transfer? && e.fromNode in balances && e.toNode in balances
    ensures Audit(Moved(balances, e.fromNode, e.toNode, e.amount), log + [e], opening)
    ensures Mentions(Moved(balances, e.fromNode, e.toNode, e.amount), log + [e])
  {
    forall n {
      LogAppend(log, e, n);
    }
  }

  lemma MovedEnsured(s: State, a: Node, b: Node, amount: real)
    ensures Moved(Ensure(Ensure(s, a, 0.0), b, 0.0).balances, a, b, amount) == Moved(s.balances, a, b, amount)
  {
  }

  lemma PaidAudited(s: State, r: nat, amount: real, now: int)
    requires Audited(s) && r < |s.heap|
    ensures Audited(Paid(s, r, amount, now))
  {
    var a, b := s.heap[r].consumerId, s.heap[r].providerId;
    var s1 := Ensure(s, a, 0.0);
    var s2, e := Ensure(s1, b, 0.0), Transfer(a, b, amount, s.heap[r].id.workloadId, now);
    EnsureAudited(s, a, 0.0);
    EnsureAudited(s1, b, 0.0);
    MovedAudit(s2.balances, s2.log, s2.history.opening, e);
    MovedEnsured(s, a, b, amount);
    var p := Paid(s, r, amount, now);
    assert p.balances == Moved(s2.balances, a, b, amount) && p.log == s2.log + [e] && p.history.opening == s2.history.opening;
  }

  lemma SameAudited(s: State, s1: State)
    requires Audited(s) && s1.balances == s.balances && s1.log == s.log && s1.history.opening == s.history.opening
    ensures Audited(s1)
  {
  }

  lemma SettledAudited(s: State, r: nat)
    requires Audited(s) && r < |s.heap|
    ensures Audited(Recorded(s, r))
  {
    forall n {
      LogAppend(s.log, Settled(r), n);
    }
  }

  lemma AddAudited(s: State, node: Node, e: LogEntry<nat>, s1: State)
    requires Audited(s) && node in s.balances && e.Addition? && e.toNode == node && s1.log == s.log + [e]
    requires s1.balances == s.balances[node := s.balances[node] + e.amount] && s1.history.opening == s.history.opening
    ensures Audited(s1)
  {
    forall n {
      LogAppend(s.log, e, n);
    }
  }

  lemma AuditStep(s: State, e: Event)
    requires Shape(s) && Enabled(s, e) && Audited(s)
    ensures Audited(Next(s, e).0)
  {
    hide Audited;
    match e
    case Start(_, a, b) =>
      EnsureAudited(s, a, 1000.0);
      EnsureAudited(Ensure(s, a, 1000.0), b, 1000.0);
      SameAudited(Ensure(Ensure(s, a, 1000.0), b, 1000.0), Next(s, e).0);
    case Update(_, _) => SameAudited(s, Next(s, e).0);
    case CompleteCall(id, now) =>
      if id in s.open {
        SameAudited(s, Attempt(s, s.open[id], now));
        PaidAudited(Attempt(s, s.open[id], now), s.open[id], Price(s.heap[s.open[id]].usage), now);
      }
    case CompleteResume(r) => SettledAudited(s, r);
    case Add(node, amount, reason, now) =>
      EnsureAudited(s, node, 0.0);
      AddAudited(Ensure(s, node, 0.0), node, Addition(node, amount, reason, now), Next(s, e).0);
  }

  // ---------- opening amounts ----------

  function Granted(opening: map<Node, real>, n: Node, amount: real): map<Node, real> {
    if n in opening then opening else opening[n := amount]
  }

  /** The grants: 1000 to a party of a transaction, 0 to a node first seen by `addCredits`; one that has a balance gets none. */
  function GrantedBy(opening: map<Node, real>, e: Event): map<Node, real> {
    match e
    case Start(_, a, b) => Granted(Granted(opening, a, 1000.0), b, 1000.0)
    case Add(node, _, _, _) => Granted(opening, node, 0.0)
    case _ => opening
  }

  /** Both parties of an open transaction have a balance. */
  ghost predicate PartiesOk(s: State) {
    && s.balances.Keys == s.history.opening.Keys
    && forall id :: id in s.open ==>
         && s.open[id] < |s.heap|
         && s.heap[s.open[id]].consumerId in s.balances && s.heap[s.open[id]].providerId in s.balances
  }

  lemma PaidOpening(s: State, r: nat, amount: real, now: int)
    requires r < |s.heap| && s.heap[r].consumerId in s.balances && s.heap[r].providerId in s.balances
    ensures Paid(s, r, amount, now).history.opening == s.history.opening
    ensures Paid(s, r, amount, now).balances.Keys == s.balances.Keys
    ensures PartiesOk(s) ==> PartiesOk(Paid(s, r, amount, now))
  {
  }

  lemma EnsureOpening(s: State, n: Node, amount: real)
    requires PartiesOk(s)
    ensures PartiesOk(Ensure(s, n, amount)) && n in Ensure(s, n, amount).balances
    ensures s.balances.Keys <= Ensure(s, n, amount).balances.Keys
    ensures Ensure(s, n, amount).history.opening == Granted(s.history.opening, n, amount)
  {
  }

  lemma OpenedOpening(s: State, tx: Tx)
    requires PartiesOk(s) && tx.consumerId in s.balances && tx.providerId in s.balances
    ensures PartiesOk(Opened(s, tx)) && Opened(s, tx).history.opening == s.history.opening
  {
  }

  lemma OtherOpening(s: State, e: Event)
    requires Shape(s) && Enabled(s, e) && PartiesOk(s) && (e.Update? || e.CompleteResume?)
    ensures Next(s, e).0.history.opening == s.history.opening && PartiesOk(Next(s, e).0)
  {
  }

  lemma CompleteOpening(s: State, e: Event)
    requires Shape(s) && PartiesOk(s) && e.CompleteCall?
    ensures Next(s, e).0.history.opening == s.history.opening && PartiesOk(Next(s, e).0)
  {
    if e.id in s.open {
      var r := s.open[e.id];
      CompleteCallIs(s, e.id, e.now);
      AttemptOpening(s, r, e.now);
      PaidOpening(Attempt(s, r, e.now), r, Price(s.heap[r].usage), e.now);
    }
  }

  lemma AttemptOpening(s: State, r: nat, now: int)
    requires Shape(s) && PartiesOk(s) && r < |s.heap|
    ensures PartiesOk(Attempt(s, r, now)) && Attempt(s, r, now).history.opening == s.history.opening
    ensures Attempt(s, r, now).balances == s.balances
  {
  }

  /** A step gives exactly the grants of its event, and changes no opening amount that is there. */
  lemma OpeningStep(s: State, e: Event)
    requires Shape(s) && Enabled(s, e) && PartiesOk(s)
    ensures Next(s, e).0.history.opening == GrantedBy(s.history.opening, e) && PartiesOk(Next(s, e).0)
  {
    hide PartiesOk;
    match e
    case Start(id, a, b) =>
      EnsureOpening(s, a, 1000.0);
      EnsureOpening(Ensure(s, a, 1000.0), b, 1000.0);
      OpenedOpening(Ensure(Ensure(s, a, 1000.0), b, 1000.0), NewTx(id, a, b));
    case CompleteCall(_, _) => CompleteOpening(s, e);
    case Add(node, _, _, _) =>
      EnsureOpening(s, node, 0.0);
      AddOpening(Ensure(s, node, 0.0), Next(s, e).0);
    case _ => OtherOpening(s, e);
  }

  lemma AddOpening(s: State, s1: State)
    requires PartiesOk(s) && s1.open == s.open && s1.heap == s.heap && s1.history.opening == s.history.opening
    requires s1.balances.Keys == s.balances.Keys
    ensures PartiesOk(s1)
  {
  }

  // ---------- conservation ----------

  function Added<T>(log: seq<LogEntry<T>>): real {
    if log == [] then 0.0
    else Added(log[..|log| - 1]) + if log[|log| - 1].Addition? then log[|log| - 1].amount else 0.0
  }

  function SelfTotal<T>(log: seq<LogEntry<T>>): real {
    if log == [] then 0.0
    else
      var e := log[|log| - 1];
      SelfTotal(log[..|log| - 1]) + if e.Transfer? && e.fromNode == e.toNode then e.amount else 0.0
  }

  lemma TotalsAppend<T>(log: seq<LogEntry<T>>, e: LogEntry<T>)
    ensures Added(log + [e]) == Added(log) + if e.Addition? then e.amount else 0.0
    ensures SelfTotal(log + [e]) == SelfTotal(log) + if e.Transfer? && e.fromNode == e.toNode then e.amount else 0.0
  {
    assert (log + [e])[..|log|] == log;
  }

  /** All credits are opening credits, added credits, or came out of a node paying itself. */
  ghost predicate Conserved(s: State) {
    && s.balances.Keys == s.history.opening.Keys
    && SumValues(s.balances) == SumValues(s.history.opening) + Added(s.log) + SelfTotal(s.log)
  }

  lemma SumAfterTwo(m: map<Node, real>, a: Node, b: Node, x: real, y: real)
    requires a in m && b in m
    ensures SumValues(m[a := x][b := y]) == SumValues(m) + x - m[a] + y - (if a == b then x else m[b])
  {
    SumValuesPut(m, a, x);
    SumValuesPut(m[a := x], b, y);
  }

  lemma MovedIs(balances: map<Node, real>, a: Node, b: Node, amount: real)
    requires a in balances && b in balances
    ensures Moved(balances, a, b, amount) == balances[a := balances[a] - amount][b := balances[b] + amount]
  {
  }

  lemma TransferTotal(balances: map<Node, real>, a: Node, b: Node, amount: real) returns (change: real)
    requires a in balances && b in balances
    ensures SumValues(Moved(balances, a, b, amount)) == SumValues(balances) + change
    ensures change == if a == b then amount else 0.0
  {
    MovedIs(balances, a, b, amount);
    change := if a == b then amount else 0.0;
    SumAfterTwo(balances, a, b, balances[a] - amount, balances[b] + amount);
  }

  /** A transfer leaves the total as it was exactly when it is between two nodes, or of nothing. */
  lemma TransferConserves(balances: map<Node, real>, a: Node, b: Node, amount: real)
    requires a in balances && b in balances
    ensures SumValues(Moved(balances, a, b, amount)) == SumValues(balances) <==> a != b || amount == 0.0
  {
    var change := TransferTotal(balances, a, b, amount);
  }

  /** A node that pays itself gains what it pays. */
  lemma SelfTransferMakesCredits()
    ensures Moved(map["n" := 1000.0], "n", "n", 10.0) == map["n" := 1010.0]
  {
  }

  lemma EnsureConserved(s: State, n: Node, amount: real)
    requires Conserved(s)
    ensures Conserved(Ensure(s, n, amount))
  {
    if n !in s.balances {
      SumValuesPut(s.balances, n, amount);
      SumValuesPut(s.history.opening, n, amount);
    }
  }

  lemma MovedConserved(s: State, e: LogEntry<nat>, s1: State)
    requires Conserved(s) && e.Transfer? && e.fromNode in s.balances && e.toNode in s.balances
    requires s1.balances == Moved(s.balances, e.fromNode, e.toNode, e.amount) && s1.log == s.log + [e]
    requires s1.history.opening == s.history.opening
    ensures Conserved(s1)
  {
    var change := TransferTotal(s.balances, e.fromNode, e.toNode, e.amount);
    TotalsAppend(s.log, e);
    assert s1.balances.Keys == s.balances.Keys;
  }

  lemma PaidConserved(s: State, r: nat, amount: real, now: int)
    requires Conserved(s) && r < |s.heap|
    ensures Conserved(Paid(s, r, amount, now))
  {
    var a, b := s.heap[r].consumerId, s.heap[r].providerId;
    var s1 := Ensure(s, a, 0.0);
    var s2, e := Ensure(s1, b, 0.0), Transfer(a, b, amount, s.heap[r].id.workloadId, now);
    EnsureConserved(s, a, 0.0);
    EnsureConserved(s1, b, 0.0);
    MovedEnsured(s, a, b, amount);
    MovedConserved(s2, e, Paid(s, r, amount, now));
  }

  lemma AddConserved(s: State, node: Node, e: LogEntry<nat>, s1: State)
    requires Conserved(s) && node in s.balances && e.Addition? && s1.log == s.log + [e]
    requires s1.balances == s.balances[node := s.balances[node] + e.amount] && s1.history.opening == s.history.opening
    ensures Conserved(s1)
  {
    SumValuesPut(s.balances, node, s.balances[node] + e.amount);
    TotalsAppend(s.log, e);
  }

  lemma SameConserved(s: State, s1: State)
    requires Conserved(s) && s1.balances == s.balances && s1.log == s.log && s1.history.opening == s.history.opening
    ensures Conserved(s1)
  {
  }

  lemma SettledConserved(s: State, r: nat)
    requires Conserved(s) && r < |s.heap|
    ensures Conserved(Recorded(s, r))
  {
    TotalsAppend(s.log, Settled(r));
  }

  lemma ConservedStep(s: State, e: Event)
    requires Shape(s) && Enabled(s, e) && Conserved(s)
    ensures Conserved(Next(s, e).0)
  {
    hide Conserved, SumValues;
    match e
    case Start(_, a, b) =>
      EnsureConserved(s, a, 1000.0);
      EnsureConserved(Ensure(s, a, 1000.0), b, 1000.0);
      SameConserved(Ensure(Ensure(s, a, 1000.0), b, 1000.0), Next(s, e).0);
    case Update(_, _) => SameConserved(s, Next(s, e).0);
    case CompleteCall(id, now) =>
      if id in s.open {
        SameConserved(s, Attempt(s, s.open[id], now));
        PaidConserved(Attempt(s, s.open[id], now), s.open[id], Price(s.heap[s.open[id]].usage), now);
      }
    case CompleteResume(r) => SettledConserved(s, r);
    case Add(node, amount, reason, now) =>
      EnsureConserved(s, node, 0.0);
      AddConserved(Ensure(s, node, 0.0), node, Addition(node, amount, reason, now), Next(s, e).0);
  }

  // ---------- no balance goes negative ----------

  ghost predicate UsageOk(u: Usage) {
    u.cpuSeconds >= 0.0 && u.memoryMbSeconds >= 0.0 && u.storageGbHours >= 0.0 && u.bandwidthGb >= 0.0
  }

  ghost predicate NonNegative(s: State) {
    && (forall n :: n in s.balances ==> s.balances[n] >= 0.0)
    && (forall r :: 0 <= r < |s.heap| ==> UsageOk(s.heap[r].usage))
  }

  ghost predicate NonNegativeEvent(e: Event) {
    (e.Update? ==> UsageOk(e.usage)) && (e.Add? ==> e.amount >= 0.0)
  }

  lemma NonNegativePaid(s: State, r: nat, amount: real, now: int)
    requires NonNegative(s) && r < |s.heap| && 0.0 <= amount <= BalanceOf(s.balances, s.heap[r].consumerId)
    ensures NonNegative(Paid(s, r, amount, now))
  {
  }

  lemma NonNegativeOther(s: State, e: Event)
    requires Shape(s) && Enabled(s, e) && NonNegative(s) && NonNegativeEvent(e) && !e.CompleteCall?
    ensures NonNegative(Next(s, e).0)
  {
  }

  lemma NonNegativeStep(s: State, e: Event)
    requires Shape(s) && Enabled(s, e) && NonNegative(s) && NonNegativeEvent(e)
    ensures NonNegative(Next(s, e).0)
  {
    if !e.CompleteCall? {
      NonNegativeOther(s, e);
    } else if e.id in s.open {
      var r := s.open[e.id];
      var amount := Price(s.heap[r].usage);
      if BalanceOf(s.balances, s.heap[r].consumerId) >= amount {
        NonNegativePaid(Attempt(s, r, e.now), r, amount, e.now);
      }
    }
  }

  // ---------- billing ----------

  /**
   A transaction's usage is the sum of its updates, its estimate their price, and its final price that of the
   updates before its latest settlement attempt.
   */
  ghost predicate Billed(s: State) {
    var h := s.history;
    && |h.updates| == |h.billed| == |s.heap|
    && forall r :: 0 <= r < |s.heap| ==>
         && s.heap[r].usage == SumUsage(h.updates[r])
         && s.heap[r].estimatedCredits == Price(s.heap[r].usage)
         && (h.billed[r].Some? ==>
               && h.billed[r].value <= |h.updates[r]|
               && s.heap[r].completed
               && s.heap[r].finalCredits == Some(Price(SumUsage(h.updates[r][..h.billed[r].value]))))
  }

  lemma BilledUpdate(s: State, id: TxId, usage: Usage)
    requires Shape(s) && Billed(s) && id in s.open
    ensures Billed(Next(s, Update(id, usage)).0)
  {
    var h, r := s.history, s.open[id];
    PricesAppend(h.updates[r], usage);
    if h.billed[r].Some? {
      assert (h.updates[r] + [usage])[..h.billed[r].value] == h.updates[r][..h.billed[r].value];
    }
  }

  lemma BilledAttempt(s: State, r: nat, now: int)
    requires Shape(s) && Billed(s) && r < |s.heap|
    ensures Billed(Attempt(s, r, now))
  {
    assert s.history.updates[r][..|s.history.updates[r]|] == s.history.updates[r];
  }

  lemma BilledOpened(s: State, tx: Tx)
    requires Shape(s) && Billed(s) && tx.usage == NO_USAGE && tx.estimatedCredits == 0.0
    ensures Billed(Opened(s, tx))
  {
    hide Price, SumUsage;
    NothingUsed();
  }

  lemma NothingUsed()
    ensures SumUsage([]) == NO_USAGE && Price(NO_USAGE) == 0.0
  {
  }

  lemma PaidSameBills(s: State, r: nat, amount: real, now: int)
    requires Billed(s) && r < |s.heap|
    ensures Billed(Paid(s, r, amount, now))
  {
    hide Billed;
    SameBills(s, Paid(s, r, amount, now));
  }

  lemma SameBills(s: State, s1: State)
    requires Billed(s) && s1.heap == s.heap && s1.history.updates == s.history.updates && s1.history.billed == s.history.billed
    ensures Billed(s1)
  {
  }

  lemma BilledStart(s: State, e: Event)
    requires Shape(s) && Enabled(s, e) && Billed(s) && e.Start?
    ensures Billed(Next(s, e).0)
  {
    hide Billed;
    var s1 := Ensure(s, e.consumerId, 1000.0);
    var s2 := Ensure(s1, e.providerId, 1000.0);
    SameBills(s, s1);
    SameBills(s1, s2);
    ShapeEnsure(s, e.consumerId, 1000.0);
    ShapeEnsure(s1, e.providerId, 1000.0);
    BilledOpened(s2, NewTx(e.id, e.consumerId, e.providerId));
  }

  lemma BilledStep(s: State, e: Event)
    requires Shape(s) && Enabled(s, e) && Billed(s)
    ensures Billed(Next(s, e).0)
  {
    hide Billed;
    match e
    case Start(_, _, _) => BilledStart(s, e);
    case Update(id, usage) =>
      if id in s.open {
        BilledUpdate(s, id, usage);
      }
    case CompleteCall(id, now) =>
      if id in s.open {
        BilledAttempt(s, s.open[id], now);
        PaidSameBills(Attempt(s, s.open[id], now), s.open[id], Price(s.heap[s.open[id]].usage), now);
      }
    case _ => SameBills(s, Next(s, e).0);
  }

  /** The estimate is the sum of the prices of all updates of the transaction, restarts in between included. */
  lemma EstimateIsExact(s: State, r: nat)
    requires Billed(s) && r < |s.heap|
    ensures s.heap[r].estimatedCredits == SumPrices(s.history.updates[r])
  {
    PriceOfSum(s.history.updates[r]);
  }

  /** And its final price that of the updates before the settlement: what came later is recorded but not billed. */
  lemma FinalIsExact(s: State, r: nat)
    requires Billed(s) && r < |s.heap| && s.history.billed[r].Some?
    ensures var us, k := s.history.updates[r], s.history.billed[r].value;
            && k <= |us|
            && s.heap[r].finalCredits == Some(SumPrices(us[..k]))
            && s.heap[r].estimatedCredits == s.heap[r].finalCredits.value + SumPrices(us[k..])
  {
    var us, k := s.history.updates[r], s.history.billed[r].value;
    EstimateIsExact(s, r);
    PriceOfSum(us[..k]);
    PricesConcat(us[..k], us[k..]);
    assert us[..k] + us[k..] == us;
  }
}
