/**
 The discipline of settlement: how often and for how much a transaction is paid. A completion moves the credits
 first and records and removes the transaction only after a save, so completions can overlap, and one that
 is suspended at a save can be interrupted by a crash.
 */
module Settlement {
  import opened Basics
  import opened CreditProtocol

  function Count(xs: seq<Option<TxId>>, id: TxId): nat {
    if xs == [] then 0 else Count(xs[..|xs| - 1], id) + if xs[|xs| - 1] == Some(id) then 1 else 0
  }

  lemma CountAppend(xs: seq<Option<TxId>>, x: Option<TxId>, id: TxId)
    ensures Count(xs + [x], id) == Count(xs, id) + if x == Some(id) then 1 else 0
  {
    assert (xs + [x])[..|xs|] == xs;
  }

  lemma {:induction false} CountZero(xs: seq<Option<TxId>>, id: TxId)
    ensures Count(xs, id) == 0 <==> forall i :: 0 <= i < |xs| ==> xs[i] != Some(id)
  {
    if xs != [] {
      CountZero(xs[..|xs| - 1], id);
    }
  }

  /** Two entries are counted twice. */
  lemma {:induction false} CountTwo(xs: seq<Option<TxId>>, id: TxId, i: nat, j: nat)
    requires i < j < |xs| && xs[i] == Some(id) && xs[j] == Some(id)
    ensures Count(xs, id) >= 2
  {
    var front := xs[..|xs| - 1];
    if j < |front| {
      CountTwo(front, id, i, j);
    } else {
      CountZero(front, id);
      assert front[i] == Some(id);
    }
  }

  /** For each log entry: the transaction it records, if it is the record of one. */
  ghost function RecordIds(s: State): (ids: seq<Option<TxId>>)
    requires Shape(s)
    ensures |ids| == |s.log|
  {
    seq(|s.log|, i requires 0 <= i < |s.log| => if s.log[i].Settled? then Some(s.heap[s.log[i].tx].id) else None)
  }

  ghost predicate Known(s: State, id: TxId) {
    exists r :: 0 <= r < |s.heap| && s.heap[r].id == id
  }

  /** An object of this life of the process: it was started in it, or loaded while still open. */
  ghost predicate Ours(s: State, r: nat) {
    r < |s.heap| && r !in s.history.carried
  }

  /** Nothing has made the payments of this transaction doubtful: no overlap, and no crash in the middle of one. */
  ghost predicate Clean(s: State, id: TxId) {
    id !in s.history.overlapped && id !in s.history.interrupted
  }

  // ---------- the invariant ----------

  /** A transaction is open until it is first recorded, and an object that is not a copy from the log has its id to itself. */
  ghost predicate OpenOk(s: State)
    requires Shape(s)
  {
    && (forall r: nat :: Ours(s, r) ==>
          (Count(RecordIds(s), s.heap[r].id) == 0 <==> s.heap[r].id in s.open && s.open[s.heap[r].id] == r))
    && (forall id :: id in s.open ==> s.open[id] !in s.history.carried)
    && (forall r :: r in s.settling ==> r !in s.history.carried)
    && (forall a: nat, b: nat :: Ours(s, a) && b < |s.heap| && a != b ==> s.heap[a].id != s.heap[b].id)
    && (forall r :: r in s.history.carried ==> Count(RecordIds(s), s.heap[r].id) > 0)
  }

  /** Payments made = records + completions suspended now + completions that were interrupted. */
  ghost predicate PaymentsOk(s: State)
    requires Shape(s)
  {
    forall r: nat :: r < |s.heap| ==>
      Count(s.history.payments, s.heap[r].id)
      == Count(RecordIds(s), s.heap[r].id) + s.settling[r] + s.history.interrupted[s.heap[r].id]
  }

  ghost predicate KnownOk(s: State) {
    && (forall i :: 0 <= i < |s.history.payments| && s.history.payments[i].Some? ==> Known(s, s.history.payments[i].value))
    && (forall id :: id in s.history.interrupted ==> Known(s, id))
  }

  /**
   A payment is a transfer from the consumer to the provider of its transaction, logged before the record of it;
   and of a clean transaction it is of the final price.
   */
  ghost predicate Pays(s: State, i: nat, r: nat)
    requires Shape(s) && i < |s.log| && r < |s.heap|
  {
    && s.log[i].Transfer?
    && s.log[i].fromNode == s.heap[r].consumerId
    && s.log[i].toNode == s.heap[r].providerId
    && s.log[i].workloadId == s.heap[r].id.workloadId
    && (Clean(s, s.heap[r].id) ==> s.heap[r].finalCredits == Some(s.log[i].amount))
    && (forall j :: 0 <= j < |s.log| && RecordIds(s)[j] == Some(s.heap[r].id) ==> i < j)
  }

  ghost predicate LinkOk(s: State)
    requires Shape(s)
  {
    forall i: nat, r: nat :: i < |s.log| && r < |s.heap| && s.history.payments[i] == Some(s.heap[r].id) ==> Pays(s, i, r)
  }

  /** A clean transaction is recorded, or being settled, at most once. */
  ghost predicate OnceOk(s: State)
    requires Shape(s)
  {
    forall r: nat :: r < |s.heap| && Clean(s, s.heap[r].id) ==> Count(RecordIds(s), s.heap[r].id) + s.settling[r] <= 1
  }

  ghost predicate Inv(s: State) {
    Shape(s) && OpenOk(s) && PaymentsOk(s) && KnownOk(s) && LinkOk(s) && OnceOk(s)
  }

  // ---------- steps that leave the settlement alone ----------

  /**
   What a step does that settles nothing: objects may be added or used, and entries that pay for nothing and
   record nothing logged.
   */
  ghost predicate Unsettled(s: State, s1: State) {
    && Shape(s) && Shape(s1) && |s.heap| <= |s1.heap| && s1.settling == s.settling
    && s1.history.carried == s.history.carried && s1.history.overlapped == s.history.overlapped
    && s1.history.interrupted == s.history.interrupted
    && (forall r :: 0 <= r < |s.heap| ==> SameTerms(s.heap[r], s1.heap[r]) && s1.heap[r].finalCredits == s.heap[r].finalCredits)
    && ((s1.log == s.log && s1.history.payments == s.history.payments) || exists e: LogEntry<nat> :: Logs(s, s1, e))
  }

  ghost predicate Logs(s: State, s1: State, e: LogEntry<nat>) {
    !e.Settled? && s1.log == s.log + [e] && s1.history.payments == s.history.payments + [None]
  }

  ghost predicate SameTerms(a: Tx, b: Tx) {
    b.id == a.id && b.consumerId == a.consumerId && b.providerId == a.providerId
  }

  ghost predicate SameCounts(s: State, s1: State)
    requires Shape(s) && Shape(s1)
  {
    forall id :: Count(RecordIds(s1), id) == Count(RecordIds(s), id)
                 && Count(s1.history.payments, id) == Count(s.history.payments, id)
  }

  lemma UnsettledCounts(s: State, s1: State)
    requires Unsettled(s, s1)
    ensures SameCounts(s, s1)
  {
    if s1.log == s.log && s1.history.payments == s.history.payments {
      assert RecordIds(s1) == RecordIds(s);
    } else {
      assert RecordIds(s1) == RecordIds(s) + [None];
      forall id ensures Count(RecordIds(s1), id) == Count(RecordIds(s), id)
                        && Count(s1.history.payments, id) == Count(s.history.payments, id) {
        CountAppend(RecordIds(s), None, id);
        CountAppend(s.history.payments, None, id);
      }
    }
  }

  lemma UnsettledLink(s: State, s1: State)
    requires Unsettled(s, s1) && LinkOk(s) && KnownOk(s)
    requires forall r: nat :: |s.heap| <= r < |s1.heap| ==> !Known(s, s1.heap[r].id)
    ensures LinkOk(s1)
  {
    forall i: nat, r: nat | i < |s1.log| && r < |s1.heap| && s1.history.payments[i] == Some(s1.heap[r].id) ensures Pays(s1, i, r) {
      assert i < |s.log| && s.history.payments[i] == s1.history.payments[i];
      assert Known(s, s1.heap[r].id) && r < |s.heap|;
      assert Pays(s, i, r);
      forall j | 0 <= j < |s1.log| && RecordIds(s1)[j] == Some(s1.heap[r].id) ensures i < j {
        if j < |s.log| {
          assert RecordIds(s)[j] == RecordIds(s1)[j];
        }
      }
    }
  }

  lemma UnsettledKnown(s: State, s1: State)
    requires Unsettled(s, s1) && KnownOk(s)
    ensures KnownOk(s1)
  {
    forall id | Known(s, id) ensures Known(s1, id) {
      var r :| 0 <= r < |s.heap| && s.heap[r].id == id;
      assert s1.heap[r].id == id;
    }
  }

  /** An update, or an addition of credits. */
  lemma UnsettledKeeps(s: State, s1: State)
    requires Inv(s) && Unsettled(s, s1) && s1.open == s.open && |s1.heap| == |s.heap|
    ensures Inv(s1)
  {
    UnsettledLink(s, s1);
    UnsettledKnown(s, s1);
    UnsettledCounts(s, s1);
  }

  /** A fresh transaction has neither payments nor records. */
  lemma FreshCounts(s: State, id: TxId)
    requires Inv(s) && !Known(s, id)
    ensures Count(RecordIds(s), id) == 0 && Count(s.history.payments, id) == 0 && s.history.interrupted[id] == 0
  {
    CountZero(RecordIds(s), id);
    CountZero(s.history.payments, id);
    assert forall i :: 0 <= i < |s.log| && s.log[i].Settled? ==> s.heap[s.log[i].tx].id != id;
  }

  lemma StartedKeeps(s: State, s1: State, tx: Tx)
    requires Inv(s) && Unsettled(s, s1) && !Known(s, tx.id) && s1.heap == s.heap + [tx]
    requires s1.open == s.open[tx.id := |s.heap|]
    ensures Inv(s1)
  {
    FreshCounts(s, tx.id);
    UnsettledLink(s, s1);
    UnsettledKnown(s, s1);
    UnsettledCounts(s, s1);
    StartedOpen(s, s1, tx);
    StartedPayments(s, s1, tx);
  }

  lemma StartedOpen(s: State, s1: State, tx: Tx)
    requires Shape(s) && OpenOk(s) && Unsettled(s, s1) && s1.heap == s.heap + [tx] && s1.open == s.open[tx.id := |s.heap|]
    requires !Known(s, tx.id) && SameCounts(s, s1) && Count(RecordIds(s), tx.id) == 0
    ensures OpenOk(s1)
  {
    assert |s.heap| !in s.history.carried;
    assert forall r :: 0 <= r < |s.heap| ==> s.heap[r].id != tx.id;
  }

  lemma StartedPayments(s: State, s1: State, tx: Tx)
    requires Shape(s) && PaymentsOk(s) && OnceOk(s) && Unsettled(s, s1) && s1.heap == s.heap + [tx] && SameCounts(s, s1)
    requires Count(RecordIds(s), tx.id) == 0 && Count(s.history.payments, tx.id) == 0 && s.history.interrupted[tx.id] == 0
    ensures PaymentsOk(s1) && OnceOk(s1)
  {
    assert s.settling[|s.heap|] == 0 by {
      assert |s.heap| !in s.settling;
    }
  }

  // ---------- settlement ----------

  /** The transaction is marked and priced: its final price changes, but only a payment that is doubtful can be of another. */
  lemma AttemptKeeps(s: State, r: nat, now: int)
    requires Inv(s) && r < |s.heap| && s.heap[r].id in s.open && s.open[s.heap[r].id] == r
    ensures Inv(Attempt(s, r, now))
  {
    AttemptRest(s, r, now);
    AttemptLink(s, r, now);
    SameIdsKnown(s, Attempt(s, r, now));
  }

  lemma SameIdsKnown(s: State, s1: State)
    requires KnownOk(s) && |s1.heap| == |s.heap| && forall r :: 0 <= r < |s.heap| ==> s1.heap[r].id == s.heap[r].id
    requires s1.history.payments == s.history.payments && s1.history.interrupted == s.history.interrupted
    ensures KnownOk(s1)
  {
    forall id | Known(s, id) ensures Known(s1, id) {
      var q :| 0 <= q < |s.heap| && s.heap[q].id == id;
      assert s1.heap[q].id == id;
    }
  }

  lemma AttemptRest(s: State, r: nat, now: int)
    requires Shape(s) && OpenOk(s) && PaymentsOk(s) && OnceOk(s) && r < |s.heap|
    ensures Shape(Attempt(s, r, now)) && OpenOk(Attempt(s, r, now))
    ensures PaymentsOk(Attempt(s, r, now)) && OnceOk(Attempt(s, r, now))
  {
    assert RecordIds(Attempt(s, r, now)) == RecordIds(s);
    AttemptOpen(s, r, now);
  }

  lemma AttemptOpen(s: State, r: nat, now: int)
    requires Shape(s) && OpenOk(s) && r < |s.heap| && Shape(Attempt(s, r, now))
    requires RecordIds(Attempt(s, r, now)) == RecordIds(s)
    ensures OpenOk(Attempt(s, r, now))
  {
  }

  lemma AttemptLink(s: State, r: nat, now: int)
    requires Inv(s) && r < |s.heap| && s.heap[r].id in s.open && s.open[s.heap[r].id] == r
    ensures Shape(Attempt(s, r, now)) && LinkOk(Attempt(s, r, now))
  {
    var s1, id := Attempt(s, r, now), s.heap[r].id;
    assert RecordIds(s1) == RecordIds(s);
    assert Ours(s, r);
    forall i: nat, q: nat | i < |s1.log| && q < |s1.heap| && s1.history.payments[i] == Some(s1.heap[q].id) ensures Pays(s1, i, q) {
      assert Pays(s, i, q);
      if s.heap[q].id == id {
        CountZero(s.history.payments, id);
        assert Count(s.history.payments, id) == s.settling[r] + s.history.interrupted[id];
        assert r in s.settling || id in s.history.interrupted;
      }
    }
  }

  /** The payment of an open transaction. */
  lemma PaidKeeps(s: State, r: nat, amount: real, now: int)
    requires Inv(s) && r < |s.heap| && s.heap[r].id in s.open && s.open[s.heap[r].id] == r
    requires s.heap[r].finalCredits == Some(amount) && (r in s.settling ==> s.heap[r].id in s.history.overlapped)
    ensures Inv(Paid(s, r, amount, now))
  {
    ShapePaid(s, r, amount, now);
    PaidCounts(s, r, amount, now);
    PaidLink(s, r, amount, now);
    PaidOpen(s, r, amount, now);
    PaidPayments(s, r, amount, now);
    PaidKnown(s, r, amount, now);
  }

  lemma PaidCounts(s: State, r: nat, amount: real, now: int)
    requires Shape(s) && r < |s.heap| && Shape(Paid(s, r, amount, now))
    ensures RecordIds(Paid(s, r, amount, now)) == RecordIds(s) + [None]
    ensures Paid(s, r, amount, now).history.payments == s.history.payments + [Some(s.heap[r].id)]
    ensures forall id :: Count(RecordIds(Paid(s, r, amount, now)), id) == Count(RecordIds(s), id)
    ensures forall id :: Count(Paid(s, r, amount, now).history.payments, id)
                         == Count(s.history.payments, id) + if id == s.heap[r].id then 1 else 0
  {
    assert RecordIds(Paid(s, r, amount, now)) == RecordIds(s) + [None];
    forall id
      ensures Count(RecordIds(Paid(s, r, amount, now)), id) == Count(RecordIds(s), id)
      ensures Count(Paid(s, r, amount, now).history.payments, id)
           == Count(s.history.payments, id) + if id == s.heap[r].id then 1 else 0
    {
      CountAppend(RecordIds(s), None, id);
      CountAppend(s.history.payments, Some(s.heap[r].id), id);
    }
  }

  lemma PaidLink(s: State, r: nat, amount: real, now: int)
    requires Shape(s) && OpenOk(s) && LinkOk(s) && r < |s.heap| && s.heap[r].id in s.open && s.open[s.heap[r].id] == r
    requires s.heap[r].finalCredits == Some(amount) && Shape(Paid(s, r, amount, now))
    requires RecordIds(Paid(s, r, amount, now)) == RecordIds(s) + [None]
    ensures LinkOk(Paid(s, r, amount, now))
  {
    var s1, id := Paid(s, r, amount, now), s.heap[r].id;
    assert Ours(s, r) && Count(RecordIds(s), id) == 0;
    CountZero(RecordIds(s), id);
    forall i: nat, q: nat | i < |s1.log| && q < |s1.heap| && s1.history.payments[i] == Some(s1.heap[q].id) ensures Pays(s1, i, q) {
      if i < |s.log| {
        assert Pays(s, i, q);
        assert forall j :: 0 <= j < |s.log| ==> RecordIds(s1)[j] == RecordIds(s)[j];
      } else {
        assert q == r;
      }
    }
  }

  lemma PaidOpen(s: State, r: nat, amount: real, now: int)
    requires Shape(s) && OpenOk(s) && r < |s.heap| && s.heap[r].id in s.open && s.open[s.heap[r].id] == r
    requires Shape(Paid(s, r, amount, now))
    requires forall id :: Count(RecordIds(Paid(s, r, amount, now)), id) == Count(RecordIds(s), id)
    ensures OpenOk(Paid(s, r, amount, now))
  {
    hide OpenOk;
    OpenIsUnrecorded(s, s.heap[r].id);
    SuspendedOpen(s, Paid(s, r, amount, now), r);
  }

  lemma SuspendedOpen(s: State, s1: State, r: nat)
    requires Shape(s) && Shape(s1) && OpenOk(s) && Ours(s, r) && s1.heap == s.heap && s1.open == s.open
    requires s1.settling == s.settling + multiset{r} && s1.history.carried == s.history.carried
    requires forall id :: Count(RecordIds(s1), id) == Count(RecordIds(s), id)
    ensures OpenOk(s1)
  {
  }

  /** One more payment of `r`, and one more completion of it suspended. */
  lemma SuspendedPayments(s: State, s1: State, r: nat)
    requires Shape(s) && Shape(s1) && PaymentsOk(s) && OnceOk(s) && r < |s.heap| && s1.heap == s.heap
    requires s1.settling == s.settling + multiset{r} && s1.history.interrupted == s.history.interrupted
    requires s1.history.overlapped == s.history.overlapped
    requires forall q: nat :: q < |s.heap| && q != r ==> s.heap[q].id != s.heap[r].id
    requires Count(RecordIds(s), s.heap[r].id) == 0 && (r in s.settling ==> s.heap[r].id in s.history.overlapped)
    requires forall id :: Count(RecordIds(s1), id) == Count(RecordIds(s), id)
    requires forall id :: Count(s1.history.payments, id) == Count(s.history.payments, id) + if id == s.heap[r].id then 1 else 0
    ensures PaymentsOk(s1) && OnceOk(s1)
  {
  }

  lemma PaidPayments(s: State, r: nat, amount: real, now: int)
    requires Shape(s) && OpenOk(s) && PaymentsOk(s) && OnceOk(s)
    requires r < |s.heap| && s.heap[r].id in s.open && s.open[s.heap[r].id] == r && Shape(Paid(s, r, amount, now))
    requires r in s.settling ==> s.heap[r].id in s.history.overlapped
    requires forall id :: Count(RecordIds(Paid(s, r, amount, now)), id) == Count(RecordIds(s), id)
    requires forall id :: Count(Paid(s, r, amount, now).history.payments, id)
                          == Count(s.history.payments, id) + if id == s.heap[r].id then 1 else 0
    ensures PaymentsOk(Paid(s, r, amount, now)) && OnceOk(Paid(s, r, amount, now))
  {
    hide PaymentsOk, OnceOk;
    OpenIsUnrecorded(s, s.heap[r].id);
    SuspendedPayments(s, Paid(s, r, amount, now), r);
  }

  lemma PaidKnown(s: State, r: nat, amount: real, now: int)
    requires KnownOk(s) && r < |s.heap|
    ensures KnownOk(Paid(s, r, amount, now))
  {
    var s1 := Paid(s, r, amount, now);
    assert s1.heap == s.heap;
    forall id | Known(s, id) ensures Known(s1, id) {
    }
    assert Known(s, s.heap[r].id);
  }

  lemma CompleteKeeps(s: State, e: Event)
    requires Inv(s) && e.CompleteCall?
    ensures Inv(Next(s, e).0)
  {
    hide OpenOk, PaymentsOk, KnownOk, LinkOk, OnceOk;
    if e.id in s.open {
      var r := s.open[e.id];
      CompleteCallIs(s, e.id, e.now);
      AttemptKeeps(s, r, e.now);
      PaidKeeps(Attempt(s, r, e.now), r, Price(s.heap[r].usage), e.now);
    }
  }

  lemma RecordedCounts(s: State, r: nat)
    requires Shape(s) && r in s.settling
    ensures Shape(Recorded(s, r)) && RecordIds(Recorded(s, r)) == RecordIds(s) + [Some(s.heap[r].id)]
    ensures forall id :: Count(RecordIds(Recorded(s, r)), id) == Count(RecordIds(s), id) + if id == s.heap[r].id then 1 else 0
    ensures forall id :: Count(Recorded(s, r).history.payments, id) == Count(s.history.payments, id)
  {
    ShapeStep(s, CompleteResume(r));
    assert RecordIds(Recorded(s, r)) == RecordIds(s) + [Some(s.heap[r].id)];
    forall id
      ensures Count(RecordIds(Recorded(s, r)), id) == Count(RecordIds(s), id) + if id == s.heap[r].id then 1 else 0
      ensures Count(Recorded(s, r).history.payments, id) == Count(s.history.payments, id)
    {
      CountAppend(RecordIds(s), Some(s.heap[r].id), id);
      CountAppend(s.history.payments, None, id);
    }
  }

  /** The record of a settlement: it is after every payment, and takes the place of the suspended completion. */
  lemma RecordedKeeps(s: State, r: nat)
    requires Inv(s) && r in s.settling
    ensures Inv(Recorded(s, r))
  {
    RecordedCounts(s, r);
    RecordedOpen(s, r);
    RecordedLink(s, r);
    RecordedPayments(s, r);
    RecordedKnown(s, r);
  }

  lemma RecordedPayments(s: State, r: nat)
    requires Shape(s) && OpenOk(s) && PaymentsOk(s) && OnceOk(s) && r in s.settling && Shape(Recorded(s, r))
    requires forall id :: Count(RecordIds(Recorded(s, r)), id) == Count(RecordIds(s), id) + if id == s.heap[r].id then 1 else 0
    requires forall id :: Count(Recorded(s, r).history.payments, id) == Count(s.history.payments, id)
    ensures PaymentsOk(Recorded(s, r)) && OnceOk(Recorded(s, r))
  {
    assert Ours(s, r);
    assert forall q: nat :: q < |s.heap| && q != r ==> s.heap[q].id != s.heap[r].id;
  }

  lemma RecordedKnown(s: State, r: nat)
    requires KnownOk(s) && r < |s.heap|
    ensures KnownOk(Recorded(s, r))
  {
    forall id | Known(s, id) ensures Known(Recorded(s, r), id) {
    }
  }

  lemma RecordedOpen(s: State, r: nat)
    requires Shape(s) && OpenOk(s) && r in s.settling && Shape(Recorded(s, r))
    requires forall id :: Count(RecordIds(Recorded(s, r)), id) == Count(RecordIds(s), id) + if id == s.heap[r].id then 1 else 0
    ensures OpenOk(Recorded(s, r))
  {
    assert Ours(s, r);
  }

  lemma RecordedLink(s: State, r: nat)
    requires Shape(s) && LinkOk(s) && r in s.settling && Shape(Recorded(s, r))
    requires RecordIds(Recorded(s, r)) == RecordIds(s) + [Some(s.heap[r].id)]
    ensures LinkOk(Recorded(s, r))
  {
    var s1 := Recorded(s, r);
    forall i: nat, q: nat | i < |s1.log| && q < |s1.heap| && s1.history.payments[i] == Some(s1.heap[q].id) ensures Pays(s1, i, q) {
      assert i < |s.log| && Pays(s, i, q);
      assert forall j :: 0 <= j < |s.log| ==> RecordIds(s1)[j] == RecordIds(s)[j];
    }
  }

  /** Each segment keeps the discipline, whatever interleaves. */
  lemma InvStep(s: State, e: Event)
    requires Inv(s) && Enabled(s, e)
    ensures Inv(Next(s, e).0)
  {
    hide OpenOk, PaymentsOk, KnownOk, LinkOk, OnceOk;
    match e
    case Start(_, _, _) => StartKeeps(s, e);
    case Update(_, _) => OtherKeeps(s, e);
    case CompleteCall(_, _) => CompleteKeeps(s, e);
    case CompleteResume(r) => RecordedKeeps(s, r);
    case Add(_, _, _, _) => OtherKeeps(s, e);
  }

  lemma StartIsUnsettled(s: State, e: Event)
    requires Shape(s) && Enabled(s, e) && e.Start?
    ensures var s1, tx := Next(s, e).0, NewTx(e.id, e.consumerId, e.providerId);
            && Unsettled(s, s1) && !Known(s, tx.id) && s1.heap == s.heap + [tx] && s1.open == s.open[tx.id := |s.heap|]
  {
    ShapeStep(s, e);
  }

  lemma StartKeeps(s: State, e: Event)
    requires Inv(s) && Enabled(s, e) && e.Start?
    ensures Inv(Next(s, e).0)
  {
    hide OpenOk, PaymentsOk, KnownOk, LinkOk, OnceOk, Next, Unsettled;
    StartIsUnsettled(s, e);
    StartedKeeps(s, Next(s, e).0, NewTx(e.id, e.consumerId, e.providerId));
  }

  lemma OtherIsUnsettled(s: State, e: Event)
    requires Shape(s) && (e.Update? || e.Add?)
    ensures var s1 := Next(s, e).0; Unsettled(s, s1) && s1.open == s.open && |s1.heap| == |s.heap|
  {
    ShapeStep(s, e);
    if e.Add? {
      var x: LogEntry<nat> := Addition(e.node, e.amount, e.reason, e.now);
      assert Logs(s, Next(s, e).0, x);
    }
  }

  lemma OtherKeeps(s: State, e: Event)
    requires Inv(s) && (e.Update? || e.Add?)
    ensures Inv(Next(s, e).0)
  {
    hide OpenOk, PaymentsOk, KnownOk, LinkOk, OnceOk, Next, Unsettled;
    OtherIsUnsettled(s, e);
    UnsettledKeeps(s, Next(s, e).0);
  }

  // ---------- what it means ----------

  /** The payments of an open transaction are those of suspended and of interrupted completions. */
  lemma PaymentsOfOpen(s: State, id: TxId)
    requires Inv(s) && id in s.open
    ensures Count(s.history.payments, id) == s.settling[s.open[id]] + s.history.interrupted[id]
  {
    assert Ours(s, s.open[id]) && Count(RecordIds(s), id) == 0;
  }

  lemma PaidLast(s: State, id: TxId, now: int)
    requires Shape(s) && id in s.open && Next(s, CompleteCall(id, now)).1 == Done
    ensures Next(s, CompleteCall(id, now)).0.history.payments == s.history.payments + [Some(id)]
  {
  }

  /**
   A completion pays for the second time exactly when another completion of the transaction is still suspended,
   or one was interrupted by a crash.
   */
  lemma PaidTwiceIffOverlappedOrInterrupted(s: State, id: TxId, now: int)
    requires Inv(s) && id in s.open && Next(s, CompleteCall(id, now)).1 == Done
    ensures Count(Next(s, CompleteCall(id, now)).0.history.payments, id) >= 2
       <==> s.open[id] in s.settling || id in s.history.interrupted
  {
    hide Next;
    PaymentsOfOpen(s, id);
    PaidLast(s, id, now);
    CountAppend(s.history.payments, Some(id), id);
  }

  /**
   In every reachable state a recorded clean transaction has been paid by exactly one transfer, of its final
   price, logged before its record; it is no longer open, and none of its completions is suspended.
   */
  lemma SettledOnce(s: State, j: nat) returns (i: nat)
    requires Inv(s) && j < |s.log| && s.log[j].Settled? && Clean(s, s.heap[s.log[j].tx].id)
    ensures var r, id := s.log[j].tx, s.heap[s.log[j].tx].id;
            && i < j && s.history.payments[i] == Some(id) && Count(s.history.payments, id) == 1
            && Count(RecordIds(s), id) == 1 && r !in s.settling
            && s.heap[r].finalCredits.Some? && s.log[i].Transfer?
            && s.log[i] == Transfer(s.heap[r].consumerId, s.heap[r].providerId, s.heap[r].finalCredits.value,
                                    id.workloadId, s.log[i].timestamp)
            && id !in s.open
  {
    var r, id := s.log[j].tx, s.heap[s.log[j].tx].id;
    assert RecordIds(s)[j] == Some(id);
    CountZero(RecordIds(s), id);
    CountZero(s.history.payments, id);
    i :| 0 <= i < |s.history.payments| && s.history.payments[i] == Some(id);
    assert Pays(s, i, r);
    RecordedIsClosed(s, id);
  }

  /** A step never changes what an entry of the log records. */
  lemma RecordsGrow(s: State, e: Event, id: TxId)
    requires Inv(s) && Enabled(s, e)
    ensures Shape(Next(s, e).0) && Count(RecordIds(Next(s, e).0), id) >= Count(RecordIds(s), id)
  {
    hide OpenOk, PaymentsOk, KnownOk, LinkOk, OnceOk;
    match e
    case Start(_, _, _) =>
      StartIsUnsettled(s, e);
      UnsettledCounts(s, Next(s, e).0);
    case CompleteCall(_, _) =>
      ShapeStep(s, e);
      if e.id in s.open {
        CompleteRecords(s, e, id);
      }
    case CompleteResume(r) => RecordedCounts(s, r);
    case _ =>
      OtherIsUnsettled(s, e);
      UnsettledCounts(s, Next(s, e).0);
  }

  lemma CompleteRecords(s: State, e: Event, id: TxId)
    requires Shape(s) && e.CompleteCall? && e.id in s.open && Shape(Next(s, e).0)
    ensures Count(RecordIds(Next(s, e).0), id) == Count(RecordIds(s), id)
  {
    hide Next;
    var r := s.open[e.id];
    var s1 := Attempt(s, r, e.now);
    CompleteCallIs(s, e.id, e.now);
    AttemptRecords(s, r, e.now);
    ShapePaid(s1, r, Price(s.heap[r].usage), e.now);
    PaidCounts(s1, r, Price(s.heap[r].usage), e.now);
  }

  lemma AttemptRecords(s: State, r: nat, now: int)
    requires Shape(s) && r < |s.heap|
    ensures Shape(Attempt(s, r, now)) && RecordIds(Attempt(s, r, now)) == RecordIds(s)
  {
  }

  lemma OpenIsUnrecorded(s: State, id: TxId)
    requires Shape(s) && OpenOk(s) && id in s.open
    ensures Count(RecordIds(s), id) == 0 && Ours(s, s.open[id])
  {
    assert Ours(s, s.open[id]);
  }

  /** A recorded transaction is not open. */
  lemma RecordedIsClosed(s: State, id: TxId)
    requires Shape(s) && OpenOk(s) && Count(RecordIds(s), id) > 0
    ensures id !in s.open
  {
    if id in s.open {
      OpenIsUnrecorded(s, id);
    }
  }

  // ---------- what a settlement that cannot be paid leaves behind ----------

  /** A settlement that cannot be paid changes no balance, log entry or open transaction ... */
  lemma UnaffordableChangesNothing(s: State, id: TxId, now: int)
    requires Shape(s) && id in s.open
    ensures var (s1, reply) := Next(s, CompleteCall(id, now));
            var tx := s.heap[s.open[id]];
            && (reply.Insufficient? <==> BalanceOf(s.balances, tx.consumerId) < Price(tx.usage))
            && (reply.Insufficient? ==>
                  && s1.balances == s.balances && s1.log == s.log && s1.open == s.open && s1.settling == s.settling
                  && s1.heap[s1.open[id]].completed && reply.needs == Price(tx.usage))
  {
  }

  /** ... and succeeds when it is tried again after the shortfall has been added. */
  lemma RetrySucceeds(s: State, id: TxId, now: int, later: int)
    requires Shape(s) && id in s.open && Next(s, CompleteCall(id, now)).1.Insufficient?
    ensures var (s1, reply) := Next(s, CompleteCall(id, now));
            var consumer := s.heap[s.open[id]].consumerId;
            && Shape(s1)
            && var s2 := Next(s1, Add(consumer, reply.needs - reply.has, "", later)).0;
               Shape(s2) && Next(s2, CompleteCall(id, later)).1 == Done
  {
    var (s1, reply) := Next(s, CompleteCall(id, now));
    ShapeStep(s, CompleteCall(id, now));
    ShapeStep(s1, Add(s.heap[s.open[id]].consumerId, reply.needs - reply.has, "", later));
  }
}
