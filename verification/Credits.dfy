/**
 The credit ledger in memory: transaction objects that the open set, the log and suspended settlements
 share and change in place. Each method is one segment between awaits and does one step of the credit protocol.
 */
module Credits {
  import opened Basics
  import opened CreditProtocol
  import opened CreditLife

  /** A usage report; fields may be missing and then count as zero. */
  datatype Report = Report(cpuSeconds: Option<real>, memoryMbSeconds: Option<real>,
                           storageGbHours: Option<real>, bandwidthGb: Option<real>)

  function OrZero(x: Option<real>): real {
    if x.Some? then x.value else 0.0
  }

  function Reported(r: Report): Usage {
    Usage(OrZero(r.cpuSeconds), OrZero(r.memoryMbSeconds), OrZero(r.storageGbHours), OrZero(r.bandwidthGb))
  }

  class Transaction {
    /** The object's number in the protocol's heap. */
    ghost const ref: nat
    const id: TxId
    const consumerId: Node
    const providerId: Node
    var completed: bool
    var resourceUsage: Usage
    var estimatedCredits: real
    var endTime: Option<int>
    var finalCredits: Option<real>

    constructor (ghost ref: nat, tx: Tx)
      ensures this.ref == ref && Snapshot() == tx
    {
      this.ref, id, consumerId, providerId := ref, tx.id, tx.consumerId, tx.providerId;
      completed, resourceUsage, estimatedCredits := tx.completed, tx.usage, tx.estimatedCredits;
      endTime, finalCredits := tx.endTime, tx.finalCredits;
    }

    function Snapshot(): Tx
      reads this
    {
      Tx(id, consumerId, providerId, completed, resourceUsage, estimatedCredits, endTime, finalCredits)
    }
  }

  ghost function Entry(e: LogEntry<Transaction>): LogEntry<nat> {
    match e
    case Transfer(a, b, amount, w, t) => Transfer(a, b, amount, w, t)
    case Addition(b, amount, reason, t) => Addition(b, amount, reason, t)
    case Settled(tx) => Settled(tx.ref)
  }

  class CreditSystem {
    const nodeId: Node
    var balances: map<Node, real>
    var transactions: seq<LogEntry<Transaction>>
    var activeTransactions: map<TxId, Transaction>
    /** The file as it was last written. */
    var disk: Data
    /** Settlements suspended between the transfer and the removal, by object. */
    ghost var settling: multiset<nat>
    ghost var objects: seq<Transaction>
    ghost var history: History

    /** Every object in use is one of `objects`, at its own number. */
    ghost predicate Linked()
      reads this, objects
    {
      && (forall i :: 0 <= i < |objects| ==> objects[i].ref == i)
      && (forall id :: id in activeTransactions ==> Known(activeTransactions[id]) && activeTransactions[id].id == id)
      && (forall i :: 0 <= i < |transactions| && transactions[i].Settled? ==> Known(transactions[i].tx))
    }

    ghost predicate Valid()
      reads this, objects
    {
      Linked() && Shape(View())
    }

    ghost predicate Known(tx: Transaction)
      reads this
    {
      tx.ref < |objects| && objects[tx.ref] == tx
    }

    /** The state of the protocol. */
    ghost function View(): State
      reads this, objects
    {
      State(
        seq(|objects|, i requires 0 <= i < |objects| reads this, objects => objects[i].Snapshot()),
        balances,
        seq(|transactions|, i requires 0 <= i < |transactions| reads this => Entry(transactions[i])),
        map id | id in activeTransactions :: activeTransactions[id].ref,
        settling, history)
    }

    /** A ledger before it has loaded anything. */
    constructor (nodeId: Node)
      ensures Valid() && Loaded(View(), nodeId, NOTHING)
      ensures this.nodeId == nodeId && objects == []
    {
      this.nodeId := nodeId;
      balances, transactions, activeTransactions := map[nodeId := 1000.0], [], map[];
      disk, settling, objects := Data(map[], [], map[]), multiset{}, [];
      history := History(map[nodeId := 1000.0], [], [], [], {}, {}, multiset{});
      new;
      assert View() == State([], map[nodeId := 1000.0], [], map[], multiset{}, history);
      assert Save(View()).log == [] && Save(View()).open == map[];
      assert Save(NOTHING).log == [] && Save(NOTHING).open == map[];
    }

    /**
     What is loaded so far of what `before` had saved: the first `n` log entries and the open transactions `ids`,
     each an object of its own that continues the history of the one it stands for.
     */
    ghost predicate LoadedSoFar(before: State, n: nat, ids: seq<TxId>)
      reads this, objects
    {
      && Shape(before) && Linked() && settling == multiset{}
      && |history.updates| == |history.billed| == |objects|
      && LogSoFar(before, n) && OpenSoFar(before, ids)
    }

    ghost predicate LogSoFar(before: State, n: nat)
      requires Shape(before)
      reads this`transactions, this`history, this`objects, objects
      reads set i | 0 <= i < |transactions| && transactions[i].Settled? :: transactions[i].tx
    {
      && n == |transactions| <= |before.log|
      && (forall i :: 0 <= i < n ==> Written(objects, transactions[i]) == CreditLife.Written(before, before.log[i]))
      && history.carried == (set i | 0 <= i < n && transactions[i].Settled? :: transactions[i].tx.ref)
      && (forall i :: 0 <= i < n && before.log[i].Settled? ==>
            transactions[i].Settled? && Resumes(transactions[i].tx.ref, before, before.log[i].tx))
    }

    ghost predicate OpenSoFar(before: State, ids: seq<TxId>)
      requires Shape(before)
      reads this`activeTransactions, this`history, this`objects, objects, activeTransactions.Values
    {
      && (forall id :: id in activeTransactions <==> id in ids)
      && (forall id :: id in ids ==> id in before.open && Reopens(activeTransactions[id], before, before.open[id]))
      && ListedBelow(|objects|)
    }

    /** The object `t` stands for the open transaction that was object `q`. */
    ghost predicate Reopens(t: Transaction, before: State, q: nat)
      requires Shape(before) && q < |before.heap|
      reads this`history, t
    {
      t.Snapshot() == before.heap[q] && Resumes(t.ref, before, q) && t.ref !in history.carried
    }

    /** The first `n` objects that are not in the log are listed as open. */
    ghost predicate ListedBelow(n: nat)
      reads this`activeTransactions, this`history, this`objects, objects
    {
      n <= |objects| &&
      forall r :: 0 <= r < n && r !in history.carried ==>
        objects[r].id in activeTransactions && activeTransactions[objects[r].id] == objects[r]
    }

    /** The history of object `r` is that of what was object `q`. */
    ghost predicate Resumes(r: nat, before: State, q: nat)
      requires Shape(before) && q < |before.heap|
      reads this`history
    {
      && r < |history.updates| && r < |history.billed|
      && history.updates[r] == before.history.updates[q] && history.billed[r] == before.history.billed[q]
    }

    static ghost function Written(objects: seq<Transaction>, e: LogEntry<Transaction>): LogEntry<Tx>
      reads if e.Settled? then {e.tx} else {}
    {
      match e
      case Transfer(a, b, amount, w, t) => Transfer(a, b, amount, w, t)
      case Addition(b, amount, reason, t) => Addition(b, amount, reason, t)
      case Settled(tx) => Settled(tx.Snapshot())
    }

    /** A new object for a transaction read from the file, where it stands for what was object `q`. */
    method Revive(tx: Tx, settled: bool, ghost before: State, ghost q: nat) returns (t: Transaction)
      requires Linked() && |history.updates| == |history.billed| == |objects| && Shape(before) && q < |before.heap|
      modifies this`objects, this`history
      ensures Linked() && fresh(t) && objects == old(objects) + [t] && Known(t) && t.Snapshot() == tx && t.ref == |old(objects)|
      ensures history == old(history).(updates := old(history).updates + [before.history.updates[q]],
                                       billed := old(history).billed + [before.history.billed[q]],
                                       carried := if settled then old(history).carried + {t.ref} else old(history).carried)
    {
      t := new Transaction(|objects|, tx);
      objects := objects + [t];
      history := history.(updates := history.updates + [before.history.updates[q]],
                          billed := history.billed + [before.history.billed[q]],
                          carried := if settled then history.carried + {t.ref} else history.carried);
    }

    /** What loading the transactions leaves alone in the history. */
    twostate predicate SameBooks()
      reads this
    {
      && history.opening == old(history.opening) && history.payments == old(history.payments)
      && history.overlapped == old(history.overlapped) && history.interrupted == old(history.interrupted)
    }

    method LoadEntry(file: Data, n: nat, ghost before: State)
      requires LoadedSoFar(before, n, []) && file == Save(before) && n < |file.log|
      modifies this`transactions, this`objects, this`history
      ensures LoadedSoFar(before, n + 1, []) && fresh(set x | x in objects && x !in old(objects)) && SameBooks()
    {
      hide Save;
      FileEntry(before, n);
      match file.log[n] {
        case Transfer(a, b, amount, w, t) => transactions := transactions + [Transfer(a, b, amount, w, t)];
        case Addition(b, amount, reason, t) => transactions := transactions + [Addition(b, amount, reason, t)];
        case Settled(tx) => LoadSettled(file, n, before);
      }
    }

    static lemma FileEntry(before: State, n: nat)
      requires Shape(before) && n < |Save(before).log|
      ensures n < |before.log| == |Save(before).log| && Save(before).log[n] == CreditLife.Written(before, before.log[n])
    {
    }

    static lemma FileOpen(before: State, id: TxId)
      requires Shape(before) && id in Save(before).open
      ensures id in before.open && Save(before).open[id] == before.heap[before.open[id]]
      ensures before.heap[before.open[id]].id == id && |Save(before).log| == |before.log|
    {
    }

    method LoadSettled(file: Data, n: nat, ghost before: State)
      requires LoadedSoFar(before, n, []) && file == Save(before) && n < |file.log| && file.log[n].Settled?
      modifies this`transactions, this`objects, this`history
      ensures LoadedSoFar(before, n + 1, []) && fresh(set x | x in objects && x !in old(objects)) && SameBooks()
    {
      hide Save;
      FileEntry(before, n);
      var t := Revive(file.log[n].tx, true, before, before.log[n].tx);
      transactions := transactions + [Settled(t)];
    }

    method LoadOpen(file: Data, ids: seq<TxId>, id: TxId, ghost before: State)
      requires LoadedSoFar(before, |file.log|, ids) && file == Save(before) && id in file.open && id !in ids
      modifies this`activeTransactions, this`objects, this`history
      ensures LoadedSoFar(before, |file.log|, ids + [id]) && fresh(set x | x in objects && x !in old(objects)) && SameBooks()
    {
      hide Save, LogSoFar, Reopens, ListedBelow;
      FileOpen(before, id);
      var t := ReviveOpen(file, ids, id, before);
      ListOpen(t, ids, before);
    }

    method ListOpen(t: Transaction, ghost ids: seq<TxId>, ghost before: State)
      requires Shape(before) && Linked() && settling == multiset{} && Known(t) && |history.updates| == |history.billed| == |objects|
      requires LogSoFar(before, |before.log|) && t.id in before.open && Reopens(t, before, before.open[t.id])
      requires ListedBelow(t.ref) && t.ref + 1 == |objects| && t.id !in ids
      requires forall x :: x in activeTransactions <==> x in ids
      requires forall x :: x in ids ==> x in before.open && Reopens(activeTransactions[x], before, before.open[x])
      modifies this`activeTransactions
      ensures LoadedSoFar(before, |before.log|, ids + [t.id])
    {
      hide Reopens, LogSoFar, Shape;
      activeTransactions := activeTransactions[t.id := t];
      assert forall x :: x in ids + [t.id] <==> x in ids || x == t.id;
    }

    method ReviveOpen(file: Data, ids: seq<TxId>, id: TxId, ghost before: State) returns (t: Transaction)
      requires LoadedSoFar(before, |file.log|, ids) && file == Save(before) && id in file.open && id !in ids
      modifies this`objects, this`history
      ensures id in before.open && |file.log| == |before.log| && Linked() && |history.updates| == |history.billed| == |objects|
      ensures fresh(t) && Known(t) && t.id == id && objects == old(objects) + [t] && SameBooks()
      ensures history.carried == old(history).carried
      ensures LogSoFar(before, |file.log|) && Reopens(t, before, before.open[id]) && ListedBelow(t.ref) && t.ref + 1 == |objects|
      ensures forall x :: x in ids ==> x in before.open && Reopens(activeTransactions[x], before, before.open[x])
    {
      hide Save;
      FileOpen(before, id);
      t := Revive(file.open[id], false, before, before.open[id]);
    }

    /**
     `_loadCreditData` of a ledger just constructed, from the file that a ledger in state `before` has written; the
     open transactions are read in the order of `ids`.
     */
    method LoadCreditData(file: Data, ids: seq<TxId>, ghost before: State)
      requires Valid() && Loaded(View(), nodeId, NOTHING) && objects == []
      requires Shape(before) && file == Save(before) && Distinct(ids) && forall id :: id in ids <==> id in file.open
      modifies this
      ensures Valid() && Loaded(View(), nodeId, before) && fresh(objects)
    {
      StartsEmpty(before);
      LoadBalances(file, before);
      LoadTransactions(file, ids, before);
      LoadedAll(before, ids);
    }

    method LoadTransactions(file: Data, ids: seq<TxId>, ghost before: State)
      requires LoadedSoFar(before, 0, []) && file == Save(before) && objects == [] && Distinct(ids)
      requires forall id :: id in ids ==> id in file.open
      modifies this`transactions, this`activeTransactions, this`objects, this`history
      ensures LoadedSoFar(before, |file.log|, ids) && fresh(objects) && SameBooks()
    {
      LoadLog(file, before);
      LoadAllOpen(file, ids, before);
    }

    /** The balances of the file are put over the node's own; the history goes on where it had stopped. */
    method LoadBalances(file: Data, ghost before: State)
      requires LoadedSoFar(before, 0, []) && file == Save(before) && objects == []
      modifies this`balances, this`history
      ensures LoadedSoFar(before, 0, [])
      ensures balances == old(balances) + before.balances && history.opening == old(history).opening + before.history.opening
      ensures history.payments == before.history.payments && history.overlapped == before.history.overlapped
      ensures history.interrupted == before.history.interrupted + SuspendedIds(before.heap, before.settling, |before.heap|)
    {
      balances := balances + file.balances;
      history := history.(
        opening := history.opening + before.history.opening, payments := before.history.payments,
        overlapped := before.history.overlapped,
        interrupted := before.history.interrupted + SuspendedIds(before.heap, before.settling, |before.heap|));
    }

    method LoadLog(file: Data, ghost before: State)
      requires LoadedSoFar(before, 0, []) && file == Save(before) && objects == []
      modifies this`transactions, this`objects, this`history
      ensures LoadedSoFar(before, |file.log|, []) && fresh(objects) && SameBooks()
    {
      for n := 0 to |file.log|
        invariant LoadedSoFar(before, n, []) && fresh(objects) && SameBooks()
      {
        LoadEntry(file, n, before);
      }
    }

    method LoadAllOpen(file: Data, ids: seq<TxId>, ghost before: State)
      requires LoadedSoFar(before, |file.log|, []) && file == Save(before) && Distinct(ids)
      requires forall id :: id in ids ==> id in file.open
      modifies this`activeTransactions, this`objects, this`history
      ensures LoadedSoFar(before, |file.log|, ids) && fresh(set x | x in objects && x !in old(objects)) && SameBooks()
    {
      for n := 0 to |ids|
        invariant LoadedSoFar(before, |file.log|, ids[..n]) && fresh(set x | x in objects && x !in old(objects)) && SameBooks()
      {
        assert ids[..n + 1] == ids[..n] + [ids[n]];
        LoadOpen(file, ids[..n], ids[n], before);
      }
      assert ids[..|ids|] == ids;
    }

    lemma StartsEmpty(before: State)
      requires Valid() && Loaded(View(), nodeId, NOTHING) && objects == [] && Shape(before)
      ensures LoadedSoFar(before, 0, [])
      ensures balances == map[nodeId := 1000.0] && history.opening == map[nodeId := 1000.0]
    {
      assert |Save(View()).log| == 0;
      assert activeTransactions.Keys == Save(View()).open.Keys;
    }

    lemma LoadedShape(before: State, ids: seq<TxId>)
      requires LoadedSoFar(before, |before.log|, ids) && |history.payments| == |before.log|
      ensures Shape(View())
    {
    }

    lemma LoadedLog(before: State, ids: seq<TxId>)
      requires LoadedSoFar(before, |before.log|, ids) && |history.payments| == |before.log|
      ensures Shape(View()) && Save(View()).log == Save(before).log
      ensures history.carried == (set i | 0 <= i < |View().log| && View().log[i].Settled? :: View().log[i].tx)
    {
      LoadedShape(before, ids);
      ghost var log := View().log;
      assert forall i :: 0 <= i < |transactions| ==> log[i] == Entry(transactions[i]);
      assert forall i :: 0 <= i < |log| ==> (log[i].Settled? <==> transactions[i].Settled?);
    }

    lemma LoadedOpens(before: State, ids: seq<TxId>)
      requires LoadedSoFar(before, |before.log|, ids) && |history.payments| == |before.log|
      requires forall id :: id in ids <==> id in before.open
      ensures Shape(View()) && Save(View()).open == Save(before).open
    {
      LoadedShape(before, ids);
      assert View().open.Keys == activeTransactions.Keys;
      forall id | id in before.open ensures View().heap[View().open[id]] == before.heap[before.open[id]] {
        assert activeTransactions[id].Snapshot() == before.heap[before.open[id]];
      }
    }

    lemma LoadedOrigins(before: State, ids: seq<TxId>, r: nat)
      requires LoadedSoFar(before, |before.log|, ids) && Shape(View()) && r < |objects|
      requires forall id :: id in ids <==> id in before.open
      ensures HasOrigin(View(), r, before)
    {
      if r in history.carried {
        var i :| 0 <= i < |transactions| && transactions[i].Settled? && transactions[i].tx.ref == r;
        assert Written(objects, transactions[i]) == CreditLife.Written(before, before.log[i]);
        assert SamePlace(View(), r, before, before.log[i].tx, i);
        assert Continues(View(), r, before, before.log[i].tx);
      } else {
        assert Continues(View(), r, before, before.open[objects[r].id]);
      }
    }

    lemma LoadedAll(before: State, ids: seq<TxId>)
      requires LoadedSoFar(before, |before.log|, ids) && forall id :: id in ids <==> id in before.open
      requires balances == map[nodeId := 1000.0] + before.balances
      requires history.opening == map[nodeId := 1000.0] + before.history.opening
      requires history.payments == before.history.payments && history.overlapped == before.history.overlapped
      requires history.interrupted == before.history.interrupted + SuspendedIds(before.heap, before.settling, |before.heap|)
      ensures Valid() && Loaded(View(), nodeId, before)
    {
      LoadedLog(before, ids);
      LoadedOpens(before, ids);
      forall r: nat | r < |objects| ensures HasOrigin(View(), r, before) {
        LoadedOrigins(before, ids, r);
      }
    }

    /**
     The process stops between two settlements and starts again: a new ledger that has loaded what this one has
     just saved has the same balances, log and open transactions, and its history goes on.
     */
    method Restart(ids: seq<TxId>) returns (again: CreditSystem)
      requires Valid() && Reachable(nodeId, View()) && settling == multiset{}
      requires Distinct(ids) && forall id :: id in ids <==> id in activeTransactions
      modifies this`disk
      ensures fresh(again) && fresh(again.objects) && again.Valid() && again.nodeId == nodeId
      ensures Shape(old(View())) && Save(again.View()) == Save(old(View()))
      ensures Loaded(again.View(), nodeId, old(View())) && Reachable(nodeId, again.View())
      ensures again.history.payments == history.payments && again.history.interrupted == history.interrupted
    {
      hide Loaded, Reachable, Save, Shape;
      ReachableSound(nodeId, View());
      SaveCreditData();
      again := new CreditSystem(nodeId);
      SavedKeys();
      again.LoadCreditData(disk, ids, View());
      RestartIdentity(View(), again.View(), nodeId);
      LoadedReachable(nodeId, again.View(), View());
      QuietRestart(View(), again.View(), nodeId);
    }

    lemma SavedKeys()
      requires Valid()
      ensures forall id :: id in Save(View()).open <==> id in activeTransactions
    {
    }

    /** `_saveCreditData` */
    method SaveCreditData()
      requires Valid()
      modifies this`disk
      ensures Valid() && View() == old(View()) && disk == Save(View())
    {
      SavedLogIs();
      SavedOpenIs();
      disk := Data(balances, SavedLog(), map id | id in activeTransactions :: activeTransactions[id].Snapshot());
    }

    lemma SavedLogIs()
      requires Valid()
      ensures SavedLog() == Save(View()).log
    {
    }

    lemma SavedOpenIs()
      requires Valid()
      ensures (map id | id in activeTransactions :: activeTransactions[id].Snapshot()) == Save(View()).open
    {
    }

    function SavedLog(): (log: seq<LogEntry<Tx>>)
      reads this, set i | 0 <= i < |transactions| && transactions[i].Settled? :: transactions[i].tx
      ensures |log| == |transactions|
      ensures forall i :: 0 <= i < |transactions| ==>
        log[i] == match transactions[i]
                  case Transfer(a, b, amount, w, t) => Transfer(a, b, amount, w, t)
                  case Addition(b, amount, reason, t) => Addition(b, amount, reason, t)
                  case Settled(tx) => Settled(tx.Snapshot())
    {
      seq(|transactions|, i requires 0 <= i < |transactions|
        reads this, set i | 0 <= i < |transactions| && transactions[i].Settled? :: transactions[i].tx =>
        match transactions[i]
        case Transfer(a, b, amount, w, t) => Transfer(a, b, amount, w, t)
        case Addition(b, amount, reason, t) => Addition(b, amount, reason, t)
        case Settled(tx) => Settled(tx.Snapshot()))
    }

    /** transactions.push */
    method Push(e: LogEntry<Transaction>, ghost pays: Option<TxId>)
      requires Linked() && (e.Settled? ==> Known(e.tx))
      modifies this`transactions, this`history
      ensures Linked() && View() == Append(old(View()), Entry(e), pays)
    {
      ghost var was := View();
      transactions := transactions + [e];
      history := history.(payments := history.payments + [pays]);
      assert View().log == was.log + [Entry(e)];
    }

    /** activeTransactions.delete */
    method Close(tx: Transaction)
      requires Linked() && Known(tx)
      modifies this`activeTransactions, this`settling
      ensures Linked() && View() == old(View()).(open := old(View()).open - {tx.id}, settling := old(View()).settling - multiset{tx.ref})
    {
      ghost var was := View().open;
      var rest := activeTransactions - {tx.id};
      assert (map id | id in rest :: rest[id].ref) == was - {tx.id};
      activeTransactions, settling := rest, settling - multiset{tx.ref};
    }

    /** A missing balance is made. */
    method EnsureBalance(n: Node, amount: real)
      requires Linked()
      modifies this`balances, this`history
      ensures Linked() && View() == Ensure(old(View()), n, amount)
    {
      if n !in balances {
        balances := balances[n := amount];
        history := history.(opening := history.opening[n := amount]);
      }
    }

    method StartResourceTracking(workloadId: string, consumerId: Node, providerId: Node, now: int) returns (id: TxId)
      requires Valid() && Enabled(View(), Start(TxId(workloadId, now), consumerId, providerId))
      modifies this
      ensures Valid() && fresh(set x | x in objects && x !in old(objects))
      ensures id == TxId(workloadId, now)
      ensures Shape(old(View())) && View() == Next(old(View()), Start(id, consumerId, providerId)).0
      ensures disk == Save(View())
    {
      id := TxId(workloadId, now);
      ShapeStep(View(), Start(id, consumerId, providerId));
      Begin(NewTx(id, consumerId, providerId));
      SaveCreditData();
    }

    /** Both parties have a balance, then the transaction is opened. */
    method Begin(tx: Tx)
      requires Linked()
      modifies this`balances, this`objects, this`activeTransactions, this`history
      ensures Linked() && fresh(set x | x in objects && x !in old(objects))
      ensures View() == Opened(Ensure(Ensure(old(View()), tx.consumerId, 1000.0), tx.providerId, 1000.0), tx)
    {
      EnsureBalance(tx.consumerId, 1000.0);
      EnsureBalance(tx.providerId, 1000.0);
      OpenTransaction(tx);
    }

    /** A transaction object of its own, listed as open. */
    method OpenTransaction(tx: Tx)
      requires Linked()
      modifies this`objects, this`activeTransactions, this`history
      ensures Linked() && fresh(set x | x in objects && x !in old(objects))
      ensures View() == Opened(old(View()), tx)
    {
      ghost var was := View();
      var t := new Transaction(|objects|, tx);
      objects, activeTransactions := objects + [t], activeTransactions[tx.id := t];
      history := history.(updates := history.updates + [[]], billed := history.billed + [None]);
      assert View().heap == was.heap + [tx];
      assert View().open == was.open[tx.id := |was.heap|];
      assert View() == Opened(was, tx);
    }

    method UpdateResourceUsage(id: TxId, report: Report) returns (reply: Reply)
      requires Valid()
      modifies this`disk, this`history, objects
      ensures Valid() && objects == old(objects)
      ensures Shape(old(View())) && (View(), reply) == Next(old(View()), Update(id, Reported(report)))
      ensures reply.Done? ==> disk == Save(View())
    {
      if id !in activeTransactions {
        return NotFound;
      }
      ShapeStep(View(), Update(id, Reported(report)));
      Use(activeTransactions[id], Reported(report));
      SaveCreditData();
      reply := Done;
    }

    method Use(tx: Transaction, usage: Usage)
      requires Valid() && Known(tx)
      modifies this`history, tx
      ensures Linked() && tx.ref < |old(View()).heap|
      ensures var s, h := old(View()), old(history);
              View() == s.(heap := s.heap[tx.ref := Used(s.heap[tx.ref], usage)],
                           history := h.(updates := h.updates[tx.ref := h.updates[tx.ref] + [usage]]))
    {
      ghost var was := View();
      tx.resourceUsage := Plus(tx.resourceUsage, usage);
      tx.estimatedCredits := Price(tx.resourceUsage);
      history := history.(updates := history.updates[tx.ref := history.updates[tx.ref] + [usage]]);
      assert View().heap == was.heap[tx.ref := Used(was.heap[tx.ref], usage)];
    }

    // ---------- settlement ----------

    /** completeTransaction up to the await of the transfer's save. */
    method CompleteCall(id: TxId, now: int) returns (reply: Reply)
      requires Valid()
      modifies this, objects
      ensures Valid() && objects == old(objects)
      ensures Shape(old(View())) && (View(), reply) == Next(old(View()), Event.CompleteCall(id, now))
      ensures disk == if reply.Done? then Save(View()) else old(disk)
      ensures activeTransactions == old(activeTransactions)
      ensures reply.Done? ==> id in activeTransactions && activeTransactions[id].ref in settling
    {
      hide Valid, View, Save, Next;
      NotOpen(id, now);
      if id !in activeTransactions {
        return NotFound;
      }
      reply := SettleOpen(id, now);
      SaveIf(reply.Done?);
    }

    lemma NotOpen(id: TxId, now: int)
      requires Valid()
      ensures Shape(View())
      ensures id !in activeTransactions ==> Next(View(), Event.CompleteCall(id, now)) == (View(), NotFound)
      ensures id in activeTransactions ==> activeTransactions[id] in objects
    {
    }

    method SaveIf(done: bool)
      requires Valid()
      modifies this`disk
      ensures Valid() && View() == old(View()) && disk == if done then Save(View()) else old(disk)
    {
      if done {
        SaveCreditData();
      }
    }

    method SettleOpen(id: TxId, now: int) returns (reply: Reply)
      requires Valid() && id in activeTransactions
      modifies this`balances, this`transactions, this`settling, this`history, activeTransactions[id]
      ensures Valid() && (View(), reply) == Next(old(View()), Event.CompleteCall(id, now))
      ensures reply.Done? ==> activeTransactions[id].ref in settling
    {
      CompleteCallIs(View(), id, now);
      ShapeStep(View(), Event.CompleteCall(id, now));
      reply := Settle(activeTransactions[id], now);
    }

    method Settle(tx: Transaction, now: int) returns (reply: Reply)
      requires Valid() && Known(tx)
      modifies this`balances, this`transactions, this`settling, this`history, tx
      ensures Linked() && tx.ref < |old(View()).heap|
      ensures reply.Done? ==> tx.ref in settling
      ensures var s := old(View());
              var amount, has := Price(s.heap[tx.ref].usage), BalanceOf(s.balances, tx.consumerId);
              (View(), reply) == if has < amount then (Attempt(s, tx.ref, now), Insufficient(has, amount))
                                 else (Paid(Attempt(s, tx.ref, now), tx.ref, amount, now), Done)
    {
      var creditAmount := Mark(tx, now);
      reply := TransferCredits(tx, creditAmount, now);
    }

    /** The transaction is marked and priced before it is known whether it can be paid. */
    method Mark(tx: Transaction, now: int) returns (creditAmount: real)
      requires Valid() && Known(tx)
      modifies this`history, tx
      ensures Linked()
      ensures tx.ref < |old(View()).heap| && View() == Attempt(old(View()), tx.ref, now)
      ensures creditAmount == Price(old(View()).heap[tx.ref].usage) && tx.Snapshot() == Marked(old(tx.Snapshot()), now)
    {
      ghost var was := View();
      tx.completed, tx.endTime := true, Some(now);
      creditAmount := Price(tx.resourceUsage);
      tx.finalCredits := Some(creditAmount);
      history := history.(
        billed := history.billed[tx.ref := Some(|history.updates[tx.ref]|)],
        overlapped := if tx.ref in settling then history.overlapped + {tx.id} else history.overlapped);
      assert View().heap == was.heap[tx.ref := Marked(was.heap[tx.ref], now)];
    }

    /** `_transferCredits`, from the reading of both balances to the save. */
    method TransferCredits(tx: Transaction, amount: real, now: int) returns (reply: Reply)
      requires Linked() && Known(tx)
      modifies this`balances, this`transactions, this`settling, this`history
      ensures Linked() && tx.ref < |old(View()).heap|
      ensures var has := BalanceOf(old(balances), tx.consumerId);
              (View(), reply) == if has < amount then (old(View()), Insufficient(has, amount))
                                 else (Paid(old(View()), tx.ref, amount, now), Done)
    {
      var fromBalance, toBalance := BalanceOf(balances, tx.consumerId), BalanceOf(balances, tx.providerId);
      if fromBalance < amount {
        return Insufficient(fromBalance, amount);
      }
      Transfers(tx, fromBalance, toBalance, amount, now);
      reply := Done;
    }

    method Transfers(tx: Transaction, fromBalance: real, toBalance: real, amount: real, now: int)
      requires Linked() && Known(tx)
      requires fromBalance == BalanceOf(balances, tx.consumerId) && toBalance == BalanceOf(balances, tx.providerId)
      modifies this`balances, this`transactions, this`settling, this`history
      ensures Linked() && tx.ref < |old(View()).heap| && View() == Paid(old(View()), tx.ref, amount, now)
    {
      ghost var was := View();
      SetBalances(tx.consumerId, fromBalance - amount, tx.providerId, toBalance + amount);
      assert balances == Moved(was.balances, tx.consumerId, tx.providerId, amount);
      LogPayment(tx, Transfer(tx.consumerId, tx.providerId, amount, tx.id.workloadId, now));
      assert View() == Paid(was, tx.ref, amount, now);
    }

    /** The transfer is logged, and the settlement goes on after the save. */
    method LogPayment(tx: Transaction, e: LogEntry<Transaction>)
      requires Linked() && Known(tx) && !e.Settled?
      modifies this`transactions, this`settling, this`history
      ensures Linked()
      ensures var s1 := Append(old(View()), Entry(e), Some(tx.id));
              View() == s1.(settling := old(View()).settling + multiset{tx.ref})
    {
      Push(e, Some(tx.id));
      settling := settling + multiset{tx.ref};
    }

    /** The two writes of a transfer, in this order. */
    method SetBalances(a: Node, x: real, b: Node, y: real)
      requires Linked()
      modifies this`balances, this`history
      ensures Linked()
      ensures var s1 := Ensure(Ensure(old(View()), a, 0.0), b, 0.0);
              View() == s1.(balances := old(balances)[a := x][b := y])
    {
      ghost var s := View();
      history := Ensure(Ensure(s, a, 0.0), b, 0.0).history;
      balances := balances[a := x];
      balances := balances[b := y];
    }

    /** completeTransaction after the transfer: the transaction is recorded and leaves the open set. */
    method CompleteResume(tx: Transaction)
      requires Valid() && Known(tx) && tx.ref in settling
      modifies this
      ensures Valid() && objects == old(objects)
      ensures Shape(old(View())) && View() == Next(old(View()), Event.CompleteResume(tx.ref)).0
      ensures disk == Save(View())
    {
      ghost var was := View();
      Push(Settled(tx), None);
      Close(tx);
      ShapeStep(was, Event.CompleteResume(tx.ref));
      assert View() == Next(was, Event.CompleteResume(tx.ref)).0;
      SaveCreditData();
    }

    /** completeTransaction run from its call to its end without interleaving. */
    method CompleteTransaction(id: TxId, now: int) returns (reply: Reply)
      requires Valid()
      modifies this, objects
      ensures Valid() && objects == old(objects)
      ensures Shape(old(View())) && (View(), reply) == Completed(old(View()), id, now)
    {
      CompletedShape(View(), id, now);
      reply := CompleteCall(id, now);
      if reply.Done? {
        CompleteResume(activeTransactions[id]);
      }
    }

    method AddCredits(node: Node, amount: real, reason: string, now: int)
      requires Valid()
      modifies this
      ensures Valid() && objects == old(objects)
      ensures Shape(old(View())) && View() == Next(old(View()), Add(node, amount, reason, now)).0
      ensures disk == Save(View())
    {
      ShapeStep(View(), Add(node, amount, reason, now));
      Credit(node, amount);
      Push(Addition(node, amount, reason, now), None);
      SaveCreditData();
    }

    method Credit(node: Node, amount: real)
      requires Linked()
      modifies this`balances, this`history
      ensures Linked()
      ensures var s1 := Ensure(old(View()), node, 0.0);
              View() == s1.(balances := s1.balances[node := s1.balances[node] + amount])
    {
      EnsureBalance(node, 0.0);
      var currentBalance := balances[node];
      balances := balances[node := currentBalance + amount];
    }
  }
}
