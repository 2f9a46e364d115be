/**
 The ledger over any number of lives of the process. Each life loads what the one before had saved, at whatever
 moment it stopped: also in the middle of a settlement.
 */
module CreditLife {
  import opened Basics
  import opened CreditProtocol
  import opened Settlement

  // ---------- saving and loading ----------

  /** What `_saveCreditData` writes: the transactions by value. */
  datatype Data = Data(balances: map<Node, real>, log: seq<LogEntry<Tx>>, open: map<TxId, Tx>)

  ghost function Written(s: State, e: LogEntry<nat>): LogEntry<Tx>
    requires e.Settled? ==> e.tx < |s.heap|
  {
    match e
    case Transfer(a, b, amount, w, t) => Transfer(a, b, amount, w, t)
    case Addition(b, amount, reason, t) => Addition(b, amount, reason, t)
    case Settled(r) => Settled(s.heap[r])
  }

  ghost function Save(s: State): Data
    requires Shape(s)
  {
    Data(s.balances,
         seq(|s.log|, i requires 0 <= i < |s.log| => Written(s, s.log[i])),
         map id | id in s.open :: s.heap[s.open[id]])
  }

  /** Before the first life: there is no file. */
  const NOTHING := State([], map[], [], map[], multiset{}, History(map[], [], [], [], {}, {}, multiset{}))

  /** The transactions of the completions that are suspended, once for each. */
  ghost function SuspendedIds(heap: seq<Tx>, settling: multiset<nat>, n: nat): multiset<TxId>
    requires n <= |heap|
  {
    if n == 0 then multiset{}
    else
      var ids, id := SuspendedIds(heap, settling, n - 1), heap[n - 1].id;
      ids[id := ids[id] + settling[n - 1]]
  }

  /**
   A ledger of `node` that has just been constructed and has finished loading what `before` had saved: its own
   balance is made first, what the file holds is put over it, and every transaction is an object of its own.
   The history goes on; completions that were suspended at the save are now interrupted.
   */
  ghost predicate Loaded(s: State, node: Node, before: State) {
    var h, was := s.history, before.history;
    && Shape(s) && Shape(before) && s.settling == multiset{}
    && s.balances == map[node := 1000.0] + before.balances
    && Save(s).log == Save(before).log && Save(s).open == Save(before).open
    && h.opening == map[node := 1000.0] + was.opening
    && h.payments == was.payments && h.overlapped == was.overlapped
    && h.interrupted == was.interrupted + SuspendedIds(before.heap, before.settling, |before.heap|)
    && h.carried == (set i | 0 <= i < |s.log| && s.log[i].Settled? :: s.log[i].tx)
    && (forall r: nat :: r < |s.heap| ==> HasOrigin(s, r, before))
    && (forall id :: id in s.open ==> s.open[id] !in h.carried)
    && (forall r :: 0 <= r < |s.heap| && r !in h.carried ==> s.heap[r].id in s.open && s.open[s.heap[r].id] == r)
  }

  ghost predicate HasOrigin(s: State, r: nat, before: State) {
    exists q: nat :: Continues(s, r, before, q)
  }

  /** Object `r` stands for what was object `q`: in the same place of the log, or open under the same id. */
  ghost predicate Continues(s: State, r: nat, before: State, q: nat) {
    && Shape(s) && Shape(before) && r < |s.heap| && q < |before.heap|
    && s.heap[r] == before.heap[q]
    && s.history.updates[r] == before.history.updates[q] && s.history.billed[r] == before.history.billed[q]
    && if r in s.history.carried then exists i :: SamePlace(s, r, before, q, i)
       else s.heap[r].id in before.open && before.open[s.heap[r].id] == q
  }

  ghost predicate SamePlace(s: State, r: nat, before: State, q: nat, i: int) {
    && 0 <= i < |s.log| && i < |before.log|
    && s.log[i].Settled? && s.log[i].tx == r && before.log[i].Settled? && before.log[i].tx == q
  }

  /** Loading what was saved, for the same node, gives the same balances, log and open transactions. */
  lemma RestartIdentity(s: State, again: State, node: Node)
    requires Loaded(again, node, s) && node in s.balances
    ensures Save(again) == Save(s)
  {
    assert again.balances == s.balances;
  }

  /** Stopping between settlements interrupts nothing. */
  lemma QuietRestart(s: State, again: State, node: Node)
    requires Loaded(again, node, s) && s.settling == multiset{}
    ensures again.history.payments == s.history.payments && again.history.interrupted == s.history.interrupted
  {
    forall id ensures SuspendedIds(s.heap, s.settling, |s.heap|)[id] == 0 {
      SuspendedNone(s.heap, s.settling, |s.heap|, id);
    }
    assert SuspendedIds(s.heap, s.settling, |s.heap|) == multiset{};
  }

  // ---------- loading keeps the settlement discipline ----------

  lemma {:induction false} SuspendedNone(heap: seq<Tx>, settling: multiset<nat>, n: nat, id: TxId)
    requires n <= |heap|
    requires forall q: nat :: q < n && heap[q].id == id ==> q !in settling
    ensures SuspendedIds(heap, settling, n)[id] == 0
  {
    if n > 0 {
      SuspendedNone(heap, settling, n - 1, id);
    }
  }

  lemma {:induction false} SuspendedAt(heap: seq<Tx>, settling: multiset<nat>, n: nat, r: nat)
    requires r < n <= |heap|
    requires forall q: nat :: q < n && q != r && heap[q].id == heap[r].id ==> q !in settling
    ensures SuspendedIds(heap, settling, n)[heap[r].id] == settling[r]
  {
    if r == n - 1 {
      SuspendedNone(heap, settling, n - 1, heap[r].id);
    } else {
      SuspendedAt(heap, settling, n - 1, r);
    }
  }

  /** Some completion of `id` is suspended. */
  ghost predicate Suspended(s: State, id: TxId) {
    exists r: nat :: r < |s.heap| && r in s.settling && s.heap[r].id == id
  }

  lemma {:induction false} SuspendedIdsAre(heap: seq<Tx>, settling: multiset<nat>, n: nat, id: TxId)
    requires n <= |heap|
    ensures id in SuspendedIds(heap, settling, n) <==> exists r: nat :: r < n && r in settling && heap[r].id == id
  {
    if n > 0 {
      SuspendedIdsAre(heap, settling, n - 1, id);
      if heap[n - 1].id == id && n - 1 in settling {
        var r: nat := n - 1;
        assert r < n && r in settling && heap[r].id == id;
      }
    }
  }

  /** In a disciplined state the suspended completions of an object are those of its id. */
  lemma SuspendedOf(s: State, r: nat)
    requires Shape(s) && OpenOk(s) && r < |s.heap|
    ensures SuspendedIds(s.heap, s.settling, |s.heap|)[s.heap[r].id] == s.settling[r]
  {
    forall q: nat | q < |s.heap| && q != r && s.heap[q].id == s.heap[r].id ensures q !in s.settling {
      if q in s.settling {
        assert Ours(s, q);
      }
    }
    SuspendedAt(s.heap, s.settling, |s.heap|, r);
  }

  lemma LoadedRecords(s: State, node: Node, before: State)
    requires Loaded(s, node, before)
    ensures RecordIds(s) == RecordIds(before)
    ensures |s.log| == |before.log|
    ensures forall i :: 0 <= i < |s.log| ==>
              (s.log[i].Settled? <==> before.log[i].Settled?) && (!s.log[i].Settled? ==> s.log[i] == before.log[i])
  {
    assert |Save(s).log| == |Save(before).log|;
    forall i | 0 <= i < |s.log|
      ensures (s.log[i].Settled? <==> before.log[i].Settled?) && (!s.log[i].Settled? ==> s.log[i] == before.log[i])
      ensures RecordIds(s)[i] == RecordIds(before)[i]
    {
      assert Save(s).log[i] == Save(before).log[i];
    }
  }

  lemma LoadedOpen(s: State, node: Node, before: State)
    requires Loaded(s, node, before)
    ensures s.open.Keys == before.open.Keys
    ensures forall id :: id in s.open ==> s.heap[s.open[id]] == before.heap[before.open[id]]
  {
    assert s.open.Keys == Save(s).open.Keys && before.open.Keys == Save(before).open.Keys;
    forall id | id in s.open ensures s.heap[s.open[id]] == before.heap[before.open[id]] {
      assert Save(s).open[id] == Save(before).open[id];
    }
  }

  /** A loaded object that is not open is in the log, under its id. */
  lemma CarriedIsRecorded(s: State, r: nat)
    requires Shape(s) && s.history.carried == (set i | 0 <= i < |s.log| && s.log[i].Settled? :: s.log[i].tx)
    requires r in s.history.carried
    ensures Count(RecordIds(s), s.heap[r].id) > 0
  {
    var i :| 0 <= i < |s.log| && s.log[i].Settled? && s.log[i].tx == r;
    assert RecordIds(s)[i] == Some(s.heap[r].id);
    CountZero(RecordIds(s), s.heap[r].id);
  }

  lemma LoadedOpenOk(s: State, node: Node, before: State)
    requires Loaded(s, node, before) && OpenOk(before)
    ensures OpenOk(s)
  {
    LoadedRecords(s, node, before);
    LoadedOpen(s, node, before);
    forall r: nat | Ours(s, r) ensures Count(RecordIds(s), s.heap[r].id) == 0 {
      OpenIsUnrecorded(before, s.heap[r].id);
    }
    forall r | r in s.history.carried ensures Count(RecordIds(s), s.heap[r].id) > 0 {
      CarriedIsRecorded(s, r);
    }
  }

  lemma LoadedPayments(s: State, node: Node, before: State)
    requires Loaded(s, node, before) && OpenOk(before) && PaymentsOk(before) && OnceOk(before)
    ensures PaymentsOk(s) && OnceOk(s)
  {
    LoadedRecords(s, node, before);
    forall r: nat | r < |s.heap|
      ensures Count(s.history.payments, s.heap[r].id)
           == Count(RecordIds(s), s.heap[r].id) + s.settling[r] + s.history.interrupted[s.heap[r].id]
      ensures Clean(s, s.heap[r].id) ==> Count(RecordIds(s), s.heap[r].id) <= 1
    {
      assert HasOrigin(s, r, before);
      var q: nat :| Continues(s, r, before, q);
      SuspendedOf(before, q);
    }
  }

  /** What has been heard of is still there: it is open, or in the log. */
  lemma StillKnown(s: State, node: Node, before: State, id: TxId)
    requires Loaded(s, node, before) && OpenOk(before) && Known(before, id)
    ensures Known(s, id)
  {
    LoadedRecords(s, node, before);
    LoadedOpen(s, node, before);
    var q :| 0 <= q < |before.heap| && before.heap[q].id == id;
    if id in before.open {
      assert s.heap[s.open[id]].id == id;
    } else {
      CountZero(RecordIds(before), id);
      assert Ours(before, q) || q in before.history.carried;
      var i :| 0 <= i < |s.log| && RecordIds(s)[i] == Some(id);
      assert s.heap[s.log[i].tx].id == id;
    }
  }

  lemma LoadedKnown(s: State, node: Node, before: State)
    requires Loaded(s, node, before) && OpenOk(before) && KnownOk(before)
    ensures KnownOk(s)
  {
    forall id | Known(before, id) ensures Known(s, id) {
      StillKnown(s, node, before, id);
    }
    forall id | id in s.history.interrupted ensures Known(s, id) {
      SuspendedIdsAre(before.heap, before.settling, |before.heap|, id);
    }
  }

  lemma LoadedLink(s: State, node: Node, before: State)
    requires Loaded(s, node, before) && LinkOk(before)
    ensures LinkOk(s)
  {
    LoadedRecords(s, node, before);
    forall i: nat, r: nat | i < |s.log| && r < |s.heap| && s.history.payments[i] == Some(s.heap[r].id) ensures Pays(s, i, r) {
      assert HasOrigin(s, r, before);
      var q: nat :| Continues(s, r, before, q);
      assert Pays(before, i, q);
    }
  }

  lemma LoadedInv(s: State, node: Node, before: State)
    requires Loaded(s, node, before) && Inv(before)
    ensures Inv(s)
  {
    hide OpenOk, PaymentsOk, KnownOk, LinkOk, OnceOk;
    LoadedOpenOk(s, node, before);
    LoadedPayments(s, node, before);
    LoadedKnown(s, node, before);
    LoadedLink(s, node, before);
  }

  // ---------- loading keeps the books ----------

  /** The books balance: the audit, the conservation of credits, exact billing, and both parties have a balance. */
  ghost predicate Books(s: State) {
    Audited(s) && Conserved(s) && Billed(s) && PartiesOk(s)
  }

  lemma {:induction false} SameLog(a: seq<LogEntry<nat>>, b: seq<LogEntry<nat>>, n: Node)
    requires |a| == |b|
    requires forall i :: 0 <= i < |a| ==> (a[i].Settled? <==> b[i].Settled?) && (!a[i].Settled? ==> a[i] == b[i])
    ensures Replay(a, n) == Replay(b, n) && SelfPaid(a, n) == SelfPaid(b, n)
    ensures Added(a) == Added(b) && SelfTotal(a) == SelfTotal(b)
  {
    if a != [] {
      SameLog(a[..|a| - 1], b[..|b| - 1], n);
    }
  }

  lemma LoadedBilled(s: State, node: Node, before: State)
    requires Loaded(s, node, before) && Billed(before)
    ensures Billed(s)
  {
    forall r: nat | r < |s.heap|
      ensures s.heap[r].usage == SumUsage(s.history.updates[r]) && s.heap[r].estimatedCredits == Price(s.heap[r].usage)
      ensures s.history.billed[r].Some? ==>
                && s.history.billed[r].value <= |s.history.updates[r]|
                && s.heap[r].completed
                && s.heap[r].finalCredits == Some(Price(SumUsage(s.history.updates[r][..s.history.billed[r].value])))
    {
      assert HasOrigin(s, r, before);
      var q: nat :| Continues(s, r, before, q);
      OriginBilled(s, r, before, q);
    }
  }

  lemma OriginBilled(s: State, r: nat, before: State, q: nat)
    requires Continues(s, r, before, q) && Billed(before)
    ensures s.heap[r].usage == SumUsage(s.history.updates[r]) && s.heap[r].estimatedCredits == Price(s.heap[r].usage)
    ensures s.history.billed[r].Some? ==>
              && s.history.billed[r].value <= |s.history.updates[r]|
              && s.heap[r].completed
              && s.heap[r].finalCredits == Some(Price(SumUsage(s.history.updates[r][..s.history.billed[r].value])))
  {
  }

  lemma LoadedParties(s: State, node: Node, before: State)
    requires Loaded(s, node, before) && PartiesOk(before)
    ensures PartiesOk(s)
  {
    LoadedOpen(s, node, before);
  }

  lemma EmptyBooks(s: State, node: Node)
    requires Loaded(s, node, NOTHING)
    ensures Books(s)
  {
    LoadedRecords(s, node, NOTHING);
    assert s.balances == map[node := 1000.0] && s.history.opening == map[node := 1000.0];
    LoadedBilled(s, node, NOTHING);
    LoadedParties(s, node, NOTHING);
  }

  lemma LoadedAudited(s: State, node: Node, before: State)
    requires Loaded(s, node, before) && Audited(before) && Conserved(before) && node in before.balances
    ensures Audited(s) && Conserved(s)
  {
    LoadedRecords(s, node, before);
    assert s.balances == before.balances && s.history.opening == before.history.opening;
    forall n: Node
      ensures Replay(s.log, n) == Replay(before.log, n) && SelfPaid(s.log, n) == SelfPaid(before.log, n)
    {
      SameLog(s.log, before.log, n);
    }
    SameLog(s.log, before.log, node);
  }

  lemma LoadedBooks(s: State, node: Node, before: State)
    requires Loaded(s, node, before) && Books(before) && node in before.balances
    ensures Books(s)
  {
    hide Loaded, Audited, Conserved, Billed, PartiesOk;
    LoadedAudited(s, node, before);
    LoadedBilled(s, node, before);
    LoadedParties(s, node, before);
  }

  // ---------- whole runs ----------

  /** The state after `es`, in any interleaving; a step that is not enabled does not happen. */
  ghost function Reach(s: State, es: seq<Event>): State {
    if es == [] then s
    else
      var s1, e := Reach(s, es[..|es| - 1]), es[|es| - 1];
      if Shape(s1) && Enabled(s1, e) then Next(s1, e).0 else s1
  }

  /** The opening amounts after `es`: to those of the start, every step adds the grants of its event. */
  ghost function Grants(opening: map<Node, real>, s: State, es: seq<Event>): map<Node, real> {
    if es == [] then opening
    else
      var s1, e, m := Reach(s, es[..|es| - 1]), es[|es| - 1], Grants(opening, s, es[..|es| - 1]);
      if Shape(s1) && Enabled(s1, e) then GrantedBy(m, e) else m
  }

  lemma BooksStep(s: State, e: Event)
    requires Shape(s) && Enabled(s, e) && Books(s)
    ensures Books(Next(s, e).0) && s.balances.Keys <= Next(s, e).0.balances.Keys
    ensures Next(s, e).0.history.opening == GrantedBy(s.history.opening, e)
  {
    AuditStep(s, e);
    ConservedStep(s, e);
    BilledStep(s, e);
    OpeningStep(s, e);
  }

  /** Every interleaving of every sequence of operations keeps the books and the discipline of settlement. */
  lemma {:induction false} RunKeepsBooks(s: State, es: seq<Event>)
    requires Inv(s) && Books(s)
    ensures Inv(Reach(s, es)) && Books(Reach(s, es))
    ensures s.balances.Keys <= Reach(s, es).balances.Keys
    ensures Reach(s, es).history.opening == Grants(s.history.opening, s, es)
  {
    hide OpenOk, PaymentsOk, KnownOk, LinkOk, OnceOk, Books, Next, GrantedBy;
    if es != [] {
      var front, e := es[..|es| - 1], es[|es| - 1];
      RunKeepsBooks(s, front);
      if Enabled(Reach(s, front), e) {
        InvStep(Reach(s, front), e);
        BooksStep(Reach(s, front), e);
      }
    }
  }

  /** One life of the process: the state after loading, and what happens until it stops. */
  datatype Session = Session(begin: State, events: seq<Event>)

  ghost function End(x: Session): State {
    Reach(x.begin, x.events)
  }

  /** What the last of these lives leaves behind. */
  ghost function Last(xs: seq<Session>): State {
    if xs == [] then NOTHING else End(xs[|xs| - 1])
  }

  /** Each life loads what the one before it had saved when it stopped, the first one nothing. */
  ghost predicate Lives(node: Node, xs: seq<Session>) {
    xs == [] || (Lives(node, xs[..|xs| - 1]) && Loaded(xs[|xs| - 1].begin, node, Last(xs[..|xs| - 1])))
  }

  /** All grants so far: a ledger gives its own node 1000 when it is constructed. */
  ghost function AllGrants(node: Node, xs: seq<Session>): map<Node, real> {
    if xs == [] then map[]
    else
      var x := xs[|xs| - 1];
      Grants(map[node := 1000.0] + AllGrants(node, xs[..|xs| - 1]), x.begin, x.events)
  }

  lemma LoadedIsSound(node: Node, begin: State, before: State)
    requires Loaded(begin, node, before)
    requires before == NOTHING || (Inv(before) && Books(before) && node in before.balances)
    ensures Inv(begin) && Books(begin) && node in begin.balances
  {
    if before == NOTHING {
      EmptyBooks(begin, node);
      NothingInv();
    } else {
      LoadedBooks(begin, node, before);
    }
    LoadedInv(begin, node, before);
  }

  lemma NothingInv()
    ensures Inv(NOTHING)
  {
  }

  /**
   Through any number of restarts, at whatever moment the process stops: every balance is the node's grants
   plus the replay of the log plus what it paid itself, the total is that of all grants, additions and such
   payments, billing is exact, and the discipline of settlement holds.
   */
  lemma {:induction false} BooksForEver(node: Node, xs: seq<Session>)
    requires Lives(node, xs) && xs != []
    ensures var s := Last(xs);
            && Inv(s) && Books(s) && node in s.balances
            && s.history.opening == AllGrants(node, xs)
            && Audit(s.balances, s.log, AllGrants(node, xs))
            && SumValues(s.balances) == SumValues(AllGrants(node, xs)) + Added(s.log) + SelfTotal(s.log)
  {
    hide Loaded, Inv, SumValues;
    var front, x := xs[..|xs| - 1], xs[|xs| - 1];
    if front != [] {
      BooksForEver(node, front);
    }
    LoadedIsSound(node, x.begin, Last(front));
    LoadedOpening(x.begin, node, Last(front));
    RunKeepsBooks(x.begin, x.events);
  }

  lemma LoadedOpening(s: State, node: Node, before: State)
    requires Loaded(s, node, before)
    ensures s.history.opening == map[node := 1000.0] + before.history.opening
  {
  }

  /** Every grant is of 1000 or of 0. */
  lemma {:induction false} GrantsAre(opening: map<Node, real>, s: State, es: seq<Event>, n: Node)
    requires forall m :: m in opening ==> opening[m] == 1000.0 || opening[m] == 0.0
    ensures n in Grants(opening, s, es) ==> Grants(opening, s, es)[n] == 1000.0 || Grants(opening, s, es)[n] == 0.0
    ensures n in opening ==> n in Grants(opening, s, es) && Grants(opening, s, es)[n] == opening[n]
  {
    hide Next, Shape, Enabled, GrantedBy;
    if es != [] {
      GrantsAre(opening, s, es[..|es| - 1], n);
      GrantedByIs(Grants(opening, s, es[..|es| - 1]), es[|es| - 1], n);
    }
  }

  lemma GrantedByIs(opening: map<Node, real>, e: Event, n: Node)
    ensures n in opening ==> n in GrantedBy(opening, e) && GrantedBy(opening, e)[n] == opening[n]
    ensures n !in opening && n in GrantedBy(opening, e) ==>
              (e.Start? && GrantedBy(opening, e)[n] == 1000.0) || (e.Add? && GrantedBy(opening, e)[n] == 0.0)
  {
  }

  lemma {:induction false} AllGrantsAre(node: Node, xs: seq<Session>, n: Node)
    ensures n in AllGrants(node, xs) ==> AllGrants(node, xs)[n] == 1000.0 || AllGrants(node, xs)[n] == 0.0
  {
    if xs != [] {
      var front, x := xs[..|xs| - 1], xs[|xs| - 1];
      forall m | m in map[node := 1000.0] + AllGrants(node, front)
        ensures (map[node := 1000.0] + AllGrants(node, front))[m] in {1000.0, 0.0}
      {
        AllGrantsAre(node, front, m);
      }
      GrantsAre(map[node := 1000.0] + AllGrants(node, front), x.begin, x.events, n);
    }
  }

  /** A balance is the node's grant plus the replay of the log exactly when the node has not paid itself anything. */
  lemma AuditIsExact(node: Node, xs: seq<Session>, n: Node)
    requires Lives(node, xs) && xs != [] && n in Last(xs).balances
    ensures var s := Last(xs);
            && n in AllGrants(node, xs) && AllGrants(node, xs)[n] in {1000.0, 0.0}
            && (s.balances[n] == AllGrants(node, xs)[n] + Replay(s.log, n) <==> SelfPaid(s.log, n) == 0.0)
  {
    BooksForEver(node, xs);
    AllGrantsAre(node, xs, n);
  }

  /** The ledger of `node` can get into state `s`. */
  ghost predicate Reachable(node: Node, s: State) {
    exists xs: seq<Session> :: xs != [] && Lives(node, xs) && s == Last(xs)
  }

  lemma ReachableSound(node: Node, s: State)
    requires Reachable(node, s)
    ensures Inv(s) && Books(s) && node in s.balances
  {
    var xs: seq<Session> :| xs != [] && Lives(node, xs) && s == Last(xs);
    BooksForEver(node, xs);
  }

  /** A new life begins in a reachable state: the first one, or any after a reachable state had been saved. */
  lemma LoadedReachable(node: Node, s: State, before: State)
    requires Loaded(s, node, before) && (before == NOTHING || Reachable(node, before))
    ensures Reachable(node, s)
  {
    hide Loaded;
    var xs: seq<Session> := [];
    if before != NOTHING {
      xs :| xs != [] && Lives(node, xs) && before == Last(xs);
    }
    LivesMore(node, xs, s);
  }

  lemma LivesMore(node: Node, xs: seq<Session>, s: State)
    requires Lives(node, xs) && Loaded(s, node, Last(xs))
    ensures Reachable(node, s)
  {
    hide Loaded;
    var ys := xs + [Session(s, [])];
    assert ys[..|xs|] == xs;
    assert Reach(s, []) == s;
    assert Lives(node, ys) && Last(ys) == s;
  }

  lemma EndExtend(x: Session, e: Event)
    requires Shape(End(x)) && Enabled(End(x), e)
    ensures End(Session(x.begin, x.events + [e])) == Next(End(x), e).0
  {
    assert (x.events + [e])[..|x.events|] == x.events;
  }

  lemma LivesExtend(node: Node, xs: seq<Session>, e: Event)
    requires xs != [] && Lives(node, xs)
    ensures var x := xs[|xs| - 1]; Lives(node, xs[..|xs| - 1] + [Session(x.begin, x.events + [e])])
  {
    hide Loaded;
    var n := |xs| - 1;
    var ys := xs[..n] + [Session(xs[n].begin, xs[n].events + [e])];
    assert ys[..n] == xs[..n] && |ys| == n + 1 && ys[n].begin == xs[n].begin;
  }

  lemma ReachableExtend(node: Node, xs: seq<Session>, e: Event)
    requires xs != [] && Lives(node, xs) && Shape(Last(xs)) && Enabled(Last(xs), e)
    ensures Reachable(node, Next(Last(xs), e).0)
  {
    hide Lives, Next, Shape, Enabled, End;
    var x := xs[|xs| - 1];
    var ys := xs[..|xs| - 1] + [Session(x.begin, x.events + [e])];
    LivesExtend(node, xs, e);
    EndExtend(x, e);
    assert ys[|ys| - 1] == Session(x.begin, x.events + [e]);
  }

  lemma ReachableShape(node: Node, s: State)
    requires Reachable(node, s)
    ensures Shape(s)
  {
    ReachableSound(node, s);
  }

  lemma ReachableStep(node: Node, s: State, e: Event)
    requires Reachable(node, s) && Enabled(s, e)
    ensures Shape(s) && Reachable(node, Next(s, e).0)
  {
    hide Lives, Last, Next;
    ReachableShape(node, s);
    var xs: seq<Session> :| xs != [] && Lives(node, xs) && s == Last(xs);
    ReachableExtend(node, xs, e);
  }

  lemma ReachableCompleted(node: Node, s: State, id: TxId, now: int)
    requires Reachable(node, s)
    ensures Shape(s) && Reachable(node, Completed(s, id, now).0)
  {
    hide Reachable;
    ReachableStep(node, s, CompleteCall(id, now));
    var (s1, reply) := Next(s, CompleteCall(id, now));
    if reply.Done? {
      ReachableStep(node, s1, CompleteResume(s.open[id]));
    }
  }

  // ---------- transfers between distinct nodes ----------

  ghost predicate DistinctParties(s: State) {
    && (forall r :: 0 <= r < |s.heap| ==> s.heap[r].consumerId != s.heap[r].providerId)
    && (forall i :: 0 <= i < |s.log| && s.log[i].Transfer? ==> s.log[i].fromNode != s.log[i].toNode)
  }

  lemma {:induction false} NoSelfPayment(log: seq<LogEntry<nat>>, n: Node)
    requires forall i :: 0 <= i < |log| && log[i].Transfer? ==> log[i].fromNode != log[i].toNode
    ensures SelfPaid(log, n) == 0.0 && SelfTotal(log) == 0.0
  {
    if log != [] {
      NoSelfPayment(log[..|log| - 1], n);
    }
  }

  lemma DistinctStep(s: State, e: Event)
    requires Shape(s) && Enabled(s, e) && DistinctParties(s) && (e.Start? ==> e.consumerId != e.providerId)
    ensures DistinctParties(Next(s, e).0)
  {
    if e.Start? {
      DistinctStart(s, e);
    } else if !e.CompleteCall? {
      DistinctOther(s, e);
    } else if e.id in s.open {
      var r := s.open[e.id];
      DistinctAttempt(s, r, e.now);
      DistinctPaid(Attempt(s, r, e.now), r, Price(s.heap[r].usage), e.now);
    }
  }

  lemma DistinctStart(s: State, e: Event)
    requires Shape(s) && Enabled(s, e) && DistinctParties(s) && e.Start? && e.consumerId != e.providerId
    ensures DistinctParties(Next(s, e).0)
  {
  }

  lemma DistinctOther(s: State, e: Event)
    requires Shape(s) && Enabled(s, e) && DistinctParties(s) && !e.Start? && !e.CompleteCall?
    ensures DistinctParties(Next(s, e).0)
  {
  }

  lemma DistinctAttempt(s: State, r: nat, now: int)
    requires Shape(s) && DistinctParties(s) && r < |s.heap|
    ensures DistinctParties(Attempt(s, r, now))
  {
  }

  lemma DistinctPaid(s: State, r: nat, amount: real, now: int)
    requires DistinctParties(s) && r < |s.heap|
    ensures DistinctParties(Paid(s, r, amount, now))
  {
  }

  ghost predicate NoOneServesItself(es: seq<Event>) {
    forall i :: 0 <= i < |es| && es[i].Start? ==> es[i].consumerId != es[i].providerId
  }

  lemma {:induction false} RunKeepsDistinct(s: State, es: seq<Event>)
    requires DistinctParties(s) && NoOneServesItself(es)
    ensures DistinctParties(Reach(s, es))
  {
    hide DistinctParties;
    if es != [] {
      var front, e := es[..|es| - 1], es[|es| - 1];
      RunKeepsDistinct(s, front);
      if Shape(Reach(s, front)) && Enabled(Reach(s, front), e) {
        DistinctStep(Reach(s, front), e);
      }
    }
  }

  lemma LoadedDistinct(s: State, node: Node, before: State)
    requires Loaded(s, node, before) && DistinctParties(before)
    ensures DistinctParties(s)
  {
    LoadedRecords(s, node, before);
    forall r: nat | r < |s.heap| ensures s.heap[r].consumerId != s.heap[r].providerId {
      assert HasOrigin(s, r, before);
    }
  }

  lemma {:induction false} LivesKeepDistinct(node: Node, xs: seq<Session>)
    requires Lives(node, xs) && forall i :: 0 <= i < |xs| ==> NoOneServesItself(xs[i].events)
    ensures DistinctParties(Last(xs))
  {
    hide DistinctParties, Loaded;
    if xs == [] {
      NothingDistinct();
    } else {
      var front, x := xs[..|xs| - 1], xs[|xs| - 1];
      LivesKeepDistinct(node, front);
      LoadedDistinct(x.begin, node, Last(front));
      RunKeepsDistinct(x.begin, x.events);
    }
  }

  lemma NothingDistinct()
    ensures DistinctParties(NOTHING)
  {
  }

  /**
   When no one is its own provider the books are those of a plain ledger: every balance is the node's grant of
   1000 or 0 plus the replay of the log, and transfers conserve the total.
   */
  lemma PlainLedger(node: Node, xs: seq<Session>, n: Node)
    requires Lives(node, xs) && xs != [] && forall i :: 0 <= i < |xs| ==> NoOneServesItself(xs[i].events)
    ensures var s, grants := Last(xs), AllGrants(node, xs);
            && s.balances.Keys == grants.Keys
            && (n in s.balances ==> s.balances[n] == grants[n] + Replay(s.log, n) && grants[n] in {1000.0, 0.0})
            && SumValues(s.balances) == SumValues(grants) + Added(s.log)
  {
    BooksForEver(node, xs);
    LivesKeepDistinct(node, xs);
    NoSelfPayment(Last(xs).log, n);
    AllGrantsAre(node, xs, n);
  }

  /** With usage and additions that are not negative no balance ever goes negative. */
  lemma {:induction false} RunKeepsNonNegative(s: State, es: seq<Event>)
    requires NonNegative(s) && forall i :: 0 <= i < |es| ==> NonNegativeEvent(es[i])
    ensures NonNegative(Reach(s, es))
  {
    if es != [] {
      var front, e := es[..|es| - 1], es[|es| - 1];
      RunKeepsNonNegative(s, front);
      if Shape(Reach(s, front)) && Enabled(Reach(s, front), e) {
        NonNegativeStep(Reach(s, front), e);
      }
    }
  }

  // ---------- settlement across lives ----------

  lemma InterruptedStays(s: State, e: Event)
    requires Shape(s) && Enabled(s, e)
    ensures Next(s, e).0.history.interrupted == s.history.interrupted
  {
  }

  lemma {:induction false} RunKeepsInterrupted(s: State, es: seq<Event>)
    ensures Reach(s, es).history.interrupted == s.history.interrupted
  {
    hide Next;
    if es != [] {
      var front, e := es[..|es| - 1], es[|es| - 1];
      RunKeepsInterrupted(s, front);
      if Shape(Reach(s, front)) && Enabled(Reach(s, front), e) {
        InterruptedStays(Reach(s, front), e);
      }
    }
  }

  lemma LoadedInterrupted(s: State, node: Node, before: State, id: TxId)
    requires Loaded(s, node, before)
    ensures id in s.history.interrupted <==> id in before.history.interrupted || Suspended(before, id)
  {
    SuspendedIdsAre(before.heap, before.settling, |before.heap|, id);
  }

  /** A life before the last one stopped while a completion of `id` was suspended. */
  ghost predicate StoppedWhileSettling(xs: seq<Session>, id: TxId) {
    exists k :: 0 <= k < |xs| - 1 && Suspended(End(xs[k]), id)
  }

  /** Interrupted are exactly the transactions of which a completion was suspended when some earlier life stopped. */
  lemma {:induction false} InterruptedIs(node: Node, xs: seq<Session>, id: TxId)
    requires Lives(node, xs) && xs != []
    ensures id in Last(xs).history.interrupted <==> StoppedWhileSettling(xs, id)
  {
    hide Loaded, Suspended;
    var front, x := xs[..|xs| - 1], xs[|xs| - 1];
    RunKeepsInterrupted(x.begin, x.events);
    LoadedInterrupted(x.begin, node, Last(front), id);
    if front == [] {
      NothingSuspended(id);
    } else {
      InterruptedIs(node, front, id);
      StoppedMore(front, x, id);
      assert xs == front + [x];
    }
  }

  lemma NothingSuspended(id: TxId)
    ensures !Suspended(NOTHING, id)
  {
  }

  lemma StoppedMore(xs: seq<Session>, x: Session, id: TxId)
    requires xs != []
    ensures StoppedWhileSettling(xs + [x], id) <==> StoppedWhileSettling(xs, id) || Suspended(Last(xs), id)
  {
    hide Suspended;
    var ys := xs + [x];
    if StoppedWhileSettling(xs, id) {
      var k :| 0 <= k < |xs| - 1 && Suspended(End(xs[k]), id);
      assert ys[k] == xs[k];
    }
    if Suspended(Last(xs), id) {
      assert ys[|xs| - 1] == xs[|xs| - 1];
    }
  }

  /**
   When a transaction is paid for the second time: exactly if another completion of it is still suspended, or
   was suspended when an earlier life of the process stopped.
   */
  lemma PaidTwiceIff(node: Node, xs: seq<Session>, id: TxId, now: int)
    requires Lives(node, xs) && xs != [] && Shape(Last(xs)) && id in Last(xs).open
    requires Next(Last(xs), CompleteCall(id, now)).1 == Done
    ensures Count(Next(Last(xs), CompleteCall(id, now)).0.history.payments, id) >= 2
       <==> Last(xs).open[id] in Last(xs).settling || StoppedWhileSettling(xs, id)
  {
    hide Next, Books;
    BooksForEver(node, xs);
    InterruptedIs(node, xs, id);
    PaidTwiceIffOverlappedOrInterrupted(Last(xs), id, now);
  }

  /** Every life but the last stopped with no settlement suspended. */
  ghost predicate StoppedQuietly(xs: seq<Session>) {
    forall k :: 0 <= k < |xs| - 1 ==> End(xs[k]).settling == multiset{}
  }

  /**
   If the process has only ever stopped between settlements, every recorded transaction whose completions did not
   overlap was paid by exactly one transfer of its final price, before its record, in all lives together.
   */
  lemma SettledOnceThroughRestarts(node: Node, xs: seq<Session>, j: nat) returns (i: nat)
    requires Lives(node, xs) && xs != [] && StoppedQuietly(xs) && Shape(Last(xs))
    requires var s := Last(xs); j < |s.log| && s.log[j].Settled? && s.heap[s.log[j].tx].id !in s.history.overlapped
    ensures var s := Last(xs);
            var tx := s.heap[s.log[j].tx];
            && i < j && tx.finalCredits.Some? && s.log[i].Transfer?
            && s.log[i] == Transfer(tx.consumerId, tx.providerId, tx.finalCredits.value, tx.id.workloadId, s.log[i].timestamp)
            && s.history.payments[i] == Some(tx.id) && Count(s.history.payments, tx.id) == 1
            && Count(RecordIds(s), tx.id) == 1 && tx.id !in s.open
  {
    hide Books;
    var s := Last(xs);
    BooksForEver(node, xs);
    InterruptedIs(node, xs, s.heap[s.log[j].tx].id);
    i := SettledOnce(s, j);
  }

  /** A recorded transaction never becomes open again ... */
  lemma {:induction false} SettledForGood(s: State, es: seq<Event>, id: TxId)
    requires Inv(s) && Count(RecordIds(s), id) > 0
    ensures Inv(Reach(s, es)) && Count(RecordIds(Reach(s, es)), id) > 0 && id !in Reach(s, es).open
  {
    hide OpenOk, PaymentsOk, KnownOk, LinkOk, OnceOk;
    if es == [] {
      RecordedIsClosed(s, id);
    } else {
      var front, e := es[..|es| - 1], es[|es| - 1];
      SettledForGood(s, front, id);
      if Enabled(Reach(s, front), e) {
        InvStep(Reach(s, front), e);
        RecordsGrow(Reach(s, front), e, id);
        RecordedIsClosed(Next(Reach(s, front), e).0, id);
      }
    }
  }

  /** ... not even by a restart. */
  lemma SettledSurvivesRestart(s: State, node: Node, again: State, es: seq<Event>, id: TxId)
    requires Inv(s) && Count(RecordIds(s), id) > 0 && Loaded(again, node, s)
    ensures Shape(Reach(again, es)) && Count(RecordIds(Reach(again, es)), id) > 0 && id !in Reach(again, es).open
  {
    LoadedInv(again, node, s);
    LoadedRecords(again, node, s);
    SettledForGood(again, es, id);
  }

  /**
   The crash that pays twice: the process stops after the transfer has been saved and before the transaction is
   removed. The next life finds it open, and a completion, though nothing overlaps it, pays once more.
   */
  lemma PaidAgainAfterCrash(s: State, id: TxId, now: int, node: Node, again: State, later: int)
    requires Inv(s) && id in s.open && s.open[id] !in s.settling && Clean(s, id)
    requires Next(s, CompleteCall(id, now)).1 == Done && Loaded(again, node, Next(s, CompleteCall(id, now)).0)
    ensures Shape(again) && id in again.open && again.settling == multiset{} && id !in again.history.overlapped
    ensures Next(again, CompleteCall(id, later)).1 == Done ==>
              Count(Next(again, CompleteCall(id, later)).0.history.payments, id) == 2
  {
    var s1 := Next(s, CompleteCall(id, now)).0;
    InvStep(s, CompleteCall(id, now));
    CrashState(s, id, now);
    LoadedInv(again, node, s1);
    LoadedOpen(again, node, s1);
    OpenIsUnrecorded(s1, id);
    assert Count(again.history.payments, id) == 1;
    if Next(again, CompleteCall(id, later)).1 == Done {
      PaidLast(again, id, later);
      CountAppend(again.history.payments, Some(id), id);
    }
  }

  lemma CrashState(s: State, id: TxId, now: int)
    requires Inv(s) && id in s.open && s.open[id] !in s.settling && Clean(s, id)
    requires Next(s, CompleteCall(id, now)).1 == Done
    ensures var s1 := Next(s, CompleteCall(id, now)).0;
            id in s1.open && id !in s1.history.overlapped && Count(s1.history.payments, id) == 1
  {
    hide Next, Price, Enabled, Inv;
    InvShape(s);
    PaymentsOfOpen(s, id);
    PaidLast(s, id, now);
    CountAppend(s.history.payments, Some(id), id);
    CallLeavesOpen(s, id, now);
  }

  lemma InvShape(s: State)
    requires Inv(s)
    ensures Shape(s)
  {
  }

  lemma CallLeavesOpen(s: State, id: TxId, now: int)
    requires Shape(s) && id in s.open && s.open[id] !in s.settling && id !in s.history.overlapped
    ensures var s1 := Next(s, CompleteCall(id, now)).0;
            id in s1.open && id !in s1.history.overlapped
  {
    hide Price, Moved;
  }
}
