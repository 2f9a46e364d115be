/**
 Counting the votes of a proposal and choosing its outcome.
 The loops of the source are methods, proved against declarative sums and a declarative winner.
 Weights and percentages are exact reals.
 */
module Tally {
  import opened Basics
  import opened JsObject

  datatype Vote = Vote(option: Key, weight: real, timestamp: int)

  /** A row of the results table: first only counters, then with the percentages added. */
  datatype Row =
    | Counters(votes: nat, weight: real)
    | Complete(votes: nat, weight: real, percentage: real, weightedPercentage: real)

  datatype Results = Results(options: Obj<Row>, totalVotes: nat, totalWeight: real)

  datatype Kind = Simple | Parameter | Protocol | Other(text: string)

  const NO_CONSENSUS := Name("no consensus")

  // ---------- declarative sums ----------

  /** `vote.weight || 1`: a weight of zero counts as one. */
  function Effective(weight: real): real {
    if weight == 0.0 then 1.0 else weight
  }

  /** No effective weight is zero or negative. */
  predicate PositiveWeights(vs: seq<Vote>) {
    forall i :: 0 <= i < |vs| ==> vs[i].weight >= 0.0
  }

  function CountFor(vs: seq<Vote>, k: Key): nat {
    if vs == [] then 0
    else CountFor(vs[..|vs| - 1], k) + if vs[|vs| - 1].option == k then 1 else 0
  }

  function WeightFor(vs: seq<Vote>, k: Key): real {
    if vs == [] then 0.0
    else WeightFor(vs[..|vs| - 1], k) + if vs[|vs| - 1].option == k then Effective(vs[|vs| - 1].weight) else 0.0
  }

  function TotalWeight(vs: seq<Vote>): real {
    if vs == [] then 0.0 else TotalWeight(vs[..|vs| - 1]) + Effective(vs[|vs| - 1].weight)
  }

  function Percent(part: real, whole: real): real {
    if whole > 0.0 then part / whole * 100.0 else 0.0
  }

  function RowFor(vs: seq<Vote>, k: Key): Row {
    Complete(CountFor(vs, k), WeightFor(vs, k),
             Percent(CountFor(vs, k) as real, |vs| as real), Percent(WeightFor(vs, k), TotalWeight(vs)))
  }

  /** The table keys: the distinct options in the listing order of an object. */
  function OptionKeys(options: seq<Key>): seq<Key> {
    Keys(Build(options, Counters(0, 0.0)))
  }

  /** What the votes `vs` amount to. */
  function TallyOf(options: seq<Key>, vs: seq<Vote>): (r: Results)
    ensures |r.options| == |OptionKeys(options)|
  {
    var ks := OptionKeys(options);
    Results(seq(|ks|, i requires 0 <= i < |ks| => Entry(ks[i], RowFor(vs, ks[i]))), |vs|, TotalWeight(vs))
  }

  /** Every vote names one of the options, so that the count finds a row for it. */
  predicate Countable(options: seq<Key>, vs: seq<Vote>) {
    forall i :: 0 <= i < |vs| ==> vs[i].option in options
  }

  lemma OptionKeysAreTheOptions(options: seq<Key>)
    ensures Distinct(OptionKeys(options))
    ensures forall k :: k in OptionKeys(options) <==> k in options
  {
    var o := Build(options, Counters(0, 0.0));
    BuildTable(options, Counters(0, 0.0));
    forall k ensures k in Keys(o) <==> k in options {
      assert Has(o, k) <==> k in options;
      if Has(o, k) {
        assert Keys(o)[Position(o, k)] == k;
      }
    }
  }

  /** A vote adds its own weight to its option and to the total exactly if that is not zero; zero adds one. */
  lemma WeightCountsAsGiven(vs: seq<Vote>, v: Vote)
    ensures WeightFor(vs + [v], v.option) == WeightFor(vs, v.option) + v.weight <==> v.weight != 0.0
    ensures TotalWeight(vs + [v]) == TotalWeight(vs) + v.weight <==> v.weight != 0.0
    ensures v.weight == 0.0 ==> TotalWeight(vs + [v]) == TotalWeight(vs) + 1.0
  {
    assert (vs + [v])[..|vs|] == vs;
  }

  /** The sums, spelled out: the number of the votes for `k` ... */
  lemma {:induction false} CountOfVotes(vs: seq<Vote>, k: Key)
    ensures CountFor(vs, k) == |set i | 0 <= i < |vs| && vs[i].option == k|
  {
    var chosen := set i | 0 <= i < |vs| && vs[i].option == k;
    if vs != [] {
      var front := vs[..|vs| - 1];
      CountOfVotes(front, k);
      var before := set i | 0 <= i < |front| && front[i].option == k;
      assert chosen == before + if vs[|vs| - 1].option == k then {|vs| - 1} else {};
    }
  }

  /** ... and their weights, where zero counts as one. */
  lemma {:induction false} WeightsOfVotes(vs: seq<Vote>, k: Key)
    ensures WeightFor(vs, k) == Total(vs, (v: Vote) => if v.option != k then 0.0 else if v.weight == 0.0 then 1.0 else v.weight)
    ensures TotalWeight(vs) == Total(vs, (v: Vote) => if v.weight == 0.0 then 1.0 else v.weight)
  {
    if vs != [] {
      WeightsOfVotes(vs[..|vs| - 1], k);
    }
  }

  // ---------- the loops ----------

  /** The results table after the votes `vs`: one row of counters for each key of `ks`. */
  ghost predicate CountersOf(table: Obj<Row>, ks: seq<Key>, vs: seq<Vote>) {
    |table| == |ks| &&
    forall i :: 0 <= i < |ks| ==> table[i] == Entry(ks[i], Counters(CountFor(vs, ks[i]), WeightFor(vs, ks[i])))
  }

  lemma CountersStep(table: Obj<Row>, ks: seq<Key>, vs: seq<Vote>, v: Vote, p: nat)
    requires CountersOf(table, ks, vs) && Distinct(ks) && p < |ks| && ks[p] == v.option
    ensures var row := table[p].value;
            CountersOf(table[p := Entry(v.option, Counters(row.votes + 1, row.weight + Effective(v.weight)))], ks, vs + [v])
  {
    assert (vs + [v])[..|vs|] == vs;
  }

  /** First loop: a row of zeros for every option. */
  method InitialRows(options: seq<Key>) returns (results: Obj<Row>)
    ensures WellOrdered(results) && CountersOf(results, OptionKeys(options), [])
  {
    results := [];
    for n := 0 to |options|
      invariant results == Build(options[..n], Counters(0, 0.0))
    {
      assert options[..n + 1][..n] == options[..n];
      results := Put(results, options[n], Counters(0, 0.0));
    }
    assert options[..|options|] == options;
    BuildTable(options, Counters(0, 0.0));
  }

  /** Second loop: each vote is added to the row it names; a vote without a row stops the count. */
  method AddVotes(table: Obj<Row>, ghost ks: seq<Key>, votes: Obj<Vote>)
    returns (ok: bool, results: Obj<Row>, totalVotes: nat, totalWeight: real)
    requires WellOrdered(table) && CountersOf(table, ks, []) && Distinct(ks)
    ensures ok <==> Countable(ks, Values(votes))
    ensures ok ==> WellOrdered(results) && CountersOf(results, ks, Values(votes))
    ensures ok ==> totalVotes == |votes| && totalWeight == TotalWeight(Values(votes))
  {
    hide WellOrdered, Effective, Put;
    ghost var vs := Values(votes);
    ok, results, totalVotes, totalWeight := true, table, 0, 0.0;
    for n := 0 to |votes|
      invariant ok && WellOrdered(results)
      invariant CountersOf(results, ks, vs[..n])
      invariant totalVotes == n && totalWeight == TotalWeight(vs[..n])
      invariant Countable(ks, vs[..n])
    {
      var vote := votes[n].value;
      var weight := Effective(vote.weight);
      var p := Position(results, vote.option);
      assert vs[..n + 1] == vs[..n] + [vote];
      if p == |results| {
        assert forall i :: 0 <= i < |ks| ==> results[i].key == ks[i];
        assert vs[n].option !in ks;
        ok := false;
        return;
      }
      var row := Counters(results[p].value.votes + 1, results[p].value.weight + weight);
      CountersStep(results, ks, vs[..n], vote, p);
      PutExisting(results, vote.option, row, p);
      PutSound(results, vote.option, row);
      results := Put(results, vote.option, row);
      totalVotes := totalVotes + 1;
      totalWeight := totalWeight + weight;
    }
    assert vs[..|vs|] == vs;
  }

  /** Third loop: the percentages, for every option in the order given, repeated options included. */
  method AddPercentages(options: seq<Key>, table: Obj<Row>, ghost vs: seq<Vote>, totalVotes: nat, totalWeight: real)
    returns (results: Obj<Row>)
    requires WellOrdered(table) && CountersOf(table, OptionKeys(options), vs)
    requires totalVotes == |vs| && totalWeight == TotalWeight(vs)
    ensures results == TallyOf(options, vs).options
  {
    ghost var ks := OptionKeys(options);
    OptionKeysAreTheOptions(options);
    results := table;
    for n := 0 to |options|
      invariant WellOrdered(results) && |results| == |ks|
      invariant forall i :: 0 <= i < |ks| ==> results[i].key == ks[i]
      invariant forall i :: 0 <= i < |ks| ==>
        results[i].value == if ks[i] in options[..n] then RowFor(vs, ks[i]) else table[i].value
    {
      assert options[..n + 1] == options[..n] + [options[n]];
      assert options[n] in ks;
      var p := Position(results, options[n]);
      var row := results[p].value;
      var full := Complete(row.votes, row.weight,
                           Percent(row.votes as real, totalVotes as real), Percent(row.weight, totalWeight));
      PutExisting(results, options[n], full, p);
      PutSound(results, options[n], full);
      results := Put(results, options[n], full);
    }
    assert options[..|options|] == options;
  }

  /**
   `_countVotes`: fails (a property of an undefined row) exactly when some vote names no option;
   otherwise the table holds the declarative sums.
   */
  method CountVotes(options: seq<Key>, votes: Obj<Vote>) returns (r: Option<Results>)
    ensures r == if Countable(options, Values(votes)) then Some(TallyOf(options, Values(votes))) else None
  {
    OptionKeysAreTheOptions(options);
    assert Countable(OptionKeys(options), Values(votes)) <==> Countable(options, Values(votes));
    var rows := InitialRows(options);
    var ok, counted, totalVotes, totalWeight := AddVotes(rows, OptionKeys(options), votes);
    if !ok {
      return None;
    }
    var results := AddPercentages(options, counted, Values(votes), totalVotes, totalWeight);
    r := Some(Results(results, totalVotes, totalWeight));
  }

  // ---------- properties of the tally ----------

  lemma RemovedBeforeLast(vs: seq<Vote>, p: nat)
    requires p < |vs| - 1
    ensures var rest, n := vs[..p] + vs[p + 1..], |vs| - 1;
            rest[..n - 1] == vs[..n][..p] + vs[..n][p + 1..] && rest[n - 1] == vs[n]
  {
  }

  lemma {:induction false} RemoveVote(vs: seq<Vote>, p: nat, k: Key)
    requires p < |vs|
    ensures var rest := vs[..p] + vs[p + 1..];
            && CountFor(vs, k) == CountFor(rest, k) + (if vs[p].option == k then 1 else 0)
            && WeightFor(vs, k) == WeightFor(rest, k) + (if vs[p].option == k then Effective(vs[p].weight) else 0.0)
            && TotalWeight(vs) == TotalWeight(rest) + Effective(vs[p].weight)
  {
    hide Effective;
    var rest, n := vs[..p] + vs[p + 1..], |vs| - 1;
    if p == n {
      assert rest == vs[..n];
    } else {
      RemoveVote(vs[..n], p, k);
      RemovedBeforeLast(vs, p);
    }
  }

  lemma {:induction false} SumsIgnoreOrder(a: seq<Vote>, b: seq<Vote>, k: Key)
    requires multiset(a) == multiset(b)
    ensures CountFor(a, k) == CountFor(b, k) && WeightFor(a, k) == WeightFor(b, k)
    ensures TotalWeight(a) == TotalWeight(b) && |a| == |b|
  {
    SameLength(a, b);
    if a != [] {
      var p := WithoutLast(a, b);
      RemoveVote(b, p, k);
      SumsIgnoreOrder(a[..|a| - 1], b[..p] + b[p + 1..], k);
    }
  }

  /** The result does not depend on the order in which the votes are enumerated. */
  lemma TallyIgnoresOrder(options: seq<Key>, a: seq<Vote>, b: seq<Vote>)
    requires multiset(a) == multiset(b)
    ensures Countable(options, a) <==> Countable(options, b)
    ensures TallyOf(options, a) == TallyOf(options, b)
  {
    forall i | 0 <= i < |a| ensures exists j :: 0 <= j < |b| && b[j] == a[i] {
      assert a[i] in multiset(b);
    }
    forall i | 0 <= i < |b| ensures exists j :: 0 <= j < |a| && a[j] == b[i] {
      assert b[i] in multiset(a);
    }
    forall k ensures RowFor(a, k) == RowFor(b, k) {
      SumsIgnoreOrder(a, b, k);
    }
    SumsIgnoreOrder(a, b, NO_CONSENSUS);
    assert TallyOf(options, a).options == TallyOf(options, b).options;
  }

  ghost function Sum(s: seq<real>): real {
    if s == [] then 0.0 else Sum(s[..|s| - 1]) + s[|s| - 1]
  }

  lemma {:induction false} SumBump(a: seq<real>, p: nat, d: real)
    requires p < |a|
    ensures Sum(a[p := a[p] + d]) == Sum(a) + d
  {
    var b, n := a[p := a[p] + d], |a| - 1;
    if p == n {
      assert b[..n] == a[..n];
    } else {
      assert b[..n] == a[..n][p := a[p] + d];
      SumBump(a[..n], p, d);
    }
  }

  lemma {:induction false} SumScale(a: seq<real>, b: seq<real>, c: real)
    requires |a| == |b| && forall i :: 0 <= i < |a| ==> b[i] == a[i] * c
    ensures Sum(b) == Sum(a) * c
  {
    if a != [] {
      SumScale(a[..|a| - 1], b[..|b| - 1], c);
    }
  }

  lemma {:induction false} SumZero(a: seq<real>)
    requires forall i :: 0 <= i < |a| ==> a[i] == 0.0
    ensures Sum(a) == 0.0
  {
    if a != [] {
      SumZero(a[..|a| - 1]);
    }
  }

  ghost function WeightColumn(ks: seq<Key>, vs: seq<Vote>): seq<real> {
    seq(|ks|, i requires 0 <= i < |ks| => WeightFor(vs, ks[i]))
  }

  ghost function VoteColumn(ks: seq<Key>, vs: seq<Vote>): seq<real> {
    seq(|ks|, i requires 0 <= i < |ks| => CountFor(vs, ks[i]) as real)
  }

  lemma {:induction false} WeightsAddUp(ks: seq<Key>, vs: seq<Vote>)
    requires Distinct(ks) && Countable(ks, vs)
    ensures Sum(WeightColumn(ks, vs)) == TotalWeight(vs)
  {
    if vs == [] {
      SumZero(WeightColumn(ks, vs));
    } else {
      var front, v := vs[..|vs| - 1], vs[|vs| - 1];
      WeightsAddUp(ks, front);
      assert v.option in ks;
      var p :| 0 <= p < |ks| && ks[p] == v.option;
      var column := WeightColumn(ks, front);
      SumBump(column, p, Effective(v.weight));
      assert WeightColumn(ks, vs) == column[p := column[p] + Effective(v.weight)];
    }
  }

  lemma {:induction false} VotesAddUp(ks: seq<Key>, vs: seq<Vote>)
    requires Distinct(ks) && Countable(ks, vs)
    ensures Sum(VoteColumn(ks, vs)) == |vs| as real
  {
    if vs == [] {
      SumZero(VoteColumn(ks, vs));
    } else {
      var front, v := vs[..|vs| - 1], vs[|vs| - 1];
      VotesAddUp(ks, front);
      assert v.option in ks;
      var p :| 0 <= p < |ks| && ks[p] == v.option;
      var column := VoteColumn(ks, front);
      SumBump(column, p, 1.0);
      assert VoteColumn(ks, vs) == column[p := column[p] + 1.0];
    }
  }

  ghost function Column(rows: Obj<Row>, f: Row -> real): seq<real> {
    seq(|rows|, i requires 0 <= i < |rows| => f(rows[i].value))
  }

  /** Over the distinct options, votes and weights add up to the totals and the percentages to 100. */
  lemma TallyAddsUp(options: seq<Key>, vs: seq<Vote>)
    requires Countable(options, vs)
    ensures var r := TallyOf(options, vs);
            && Sum(Column(r.options, (row: Row) => row.votes as real)) == r.totalVotes as real
            && Sum(Column(r.options, (row: Row) => row.weight)) == r.totalWeight
            && (forall i :: 0 <= i < |r.options| ==> r.options[i].value.Complete?)
            && (r.totalVotes > 0 ==>
                  Sum(Column(r.options, (row: Row) => if row.Complete? then row.percentage else 0.0)) == 100.0)
            && (r.totalWeight > 0.0 ==>
                  Sum(Column(r.options, (row: Row) => if row.Complete? then row.weightedPercentage else 0.0)) == 100.0)
  {
    var r, ks := TallyOf(options, vs), OptionKeys(options);
    OptionKeysAreTheOptions(options);
    WeightsAddUp(ks, vs);
    VotesAddUp(ks, vs);
    var votes, weights := VoteColumn(ks, vs), WeightColumn(ks, vs);
    assert Column(r.options, (row: Row) => row.votes as real) == votes;
    assert Column(r.options, (row: Row) => row.weight) == weights;
    if r.totalVotes > 0 {
      PercentagesOf(votes, |vs| as real,
                    Column(r.options, (row: Row) => if row.Complete? then row.percentage else 0.0));
    }
    if r.totalWeight > 0.0 {
      PercentagesOf(weights, TotalWeight(vs),
                    Column(r.options, (row: Row) => if row.Complete? then row.weightedPercentage else 0.0));
    }
  }

  lemma PercentagesOf(parts: seq<real>, whole: real, percentages: seq<real>)
    requires whole > 0.0 && Sum(parts) == whole
    requires |percentages| == |parts|
    requires forall i :: 0 <= i < |parts| ==> percentages[i] == Percent(parts[i], whole)
    ensures Sum(percentages) == 100.0
  {
    var c := 100.0 / whole;
    forall i | 0 <= i < |parts| ensures percentages[i] == parts[i] * c {
      assert parts[i] / whole * 100.0 == parts[i] * c;
    }
    SumScale(parts, percentages, c);
    assert whole * c == 100.0;
  }

  // ---------- the outcome ----------

  /** The running maximum of the loop: the highest weight seen and the option that has it. */
  function Leader(rows: Obj<Row>): (real, Option<Key>) {
    if rows == [] then (0.0, None)
    else
      var best, last := Leader(rows[..|rows| - 1]), rows[|rows| - 1];
      if last.value.weight > best.0 then (last.value.weight, Some(last.key)) else best
  }

  function Outcome(rows: Obj<Row>, kind: Kind): Option<Key> {
    if kind.Protocol? then Some(NO_CONSENSUS) else Leader(rows).1
  }

  /** `w` is the position of the first row of greatest weight, and that weight is positive. */
  ghost predicate FirstMaximum(rows: Obj<Row>, w: nat) {
    && w < |rows|
    && rows[w].value.weight > 0.0
    && (forall i :: 0 <= i < w ==> rows[i].value.weight < rows[w].value.weight)
    && (forall i :: w <= i < |rows| ==> rows[i].value.weight <= rows[w].value.weight)
  }

  /** The choice of simple majority: the key of the first row of greatest weight, and nothing exactly if no weight is positive. */
  ghost predicate Plurality(rows: Obj<Row>, winner: Option<Key>) {
    if winner.None? then forall i :: 0 <= i < |rows| ==> rows[i].value.weight <= 0.0
    else exists w: nat :: FirstMaximum(rows, w) && rows[w].key == winner.value
  }

  lemma LeaderIsPlurality(rows: Obj<Row>)
    ensures Plurality(rows, Leader(rows).1)
  {
    LeaderIsFirstMaximum(rows);
  }

  lemma PluralityIsUnique(rows: Obj<Row>, a: Option<Key>, b: Option<Key>)
    requires Plurality(rows, a) && Plurality(rows, b)
    ensures a == b
  {
    if a.Some? && b.Some? {
      var v: nat :| FirstMaximum(rows, v) && rows[v].key == a.value;
      var w: nat :| FirstMaximum(rows, w) && rows[w].key == b.value;
      assert v <= w && w <= v;
    }
  }

  /** `_determineOutcome`. The super-majority loop returns from its callback only, so it chooses nothing. */
  method DetermineOutcome(results: Results, kind: Kind) returns (winner: Option<Key>)
    ensures winner == Outcome(results.options, kind)
    ensures kind.Protocol? ==> winner == Some(Name("no consensus"))
    ensures !kind.Protocol? ==> Plurality(results.options, winner)
  {
    var rows := results.options;
    LeaderIsPlurality(rows);
    if kind.Protocol? {
      return Some(NO_CONSENSUS);
    }
    var highestWeight := 0.0;
    winner := None;
    for n := 0 to |rows|
      invariant (highestWeight, winner) == Leader(rows[..n])
    {
      assert rows[..n + 1][..n] == rows[..n];
      if rows[n].value.weight > highestWeight {
        highestWeight := rows[n].value.weight;
        winner := Some(rows[n].key);
      }
    }
    assert rows[..|rows|] == rows;
  }

  /** The loop chooses the first maximum in listing order, and nothing exactly when no weight is positive. */
  lemma {:induction false} LeaderIsFirstMaximum(rows: Obj<Row>)
    ensures Leader(rows).1 == None <==> forall i :: 0 <= i < |rows| ==> rows[i].value.weight <= 0.0
    ensures Leader(rows).1.Some? ==>
              exists w: nat :: FirstMaximum(rows, w) && Leader(rows) == (rows[w].value.weight, Some(rows[w].key))
    ensures Leader(rows).1 == None ==> Leader(rows).0 == 0.0
  {
    if rows != [] {
      var n := |rows| - 1;
      var front := rows[..n];
      LeaderIsFirstMaximum(front);
      if rows[n].value.weight > Leader(front).0 {
        assert FirstMaximum(rows, n);
      } else if Leader(front).1.Some? {
        var w: nat :| FirstMaximum(front, w) && Leader(front) == (front[w].value.weight, Some(front[w].key));
        assert FirstMaximum(rows, w);
      }
    }
  }

  /** A first maximum is what the loop chooses. */
  lemma FirstMaximumWins(rows: Obj<Row>, w: nat)
    requires FirstMaximum(rows, w)
    ensures Leader(rows).1 == Some(rows[w].key)
  {
    LeaderIsFirstMaximum(rows);
    assert Leader(rows).1 != None;
    var x: nat :| FirstMaximum(rows, x) && Leader(rows) == (rows[x].value.weight, Some(rows[x].key));
    assert x <= w && w <= x;
  }

  lemma {:induction false} PositiveSums(vs: seq<Vote>, k: Key)
    requires PositiveWeights(vs)
    ensures 0.0 <= WeightFor(vs, k) <= TotalWeight(vs)
    ensures TotalWeight(vs) > 0.0 <==> vs != []
    ensures (exists i :: 0 <= i < |vs| && vs[i].option == k) ==> WeightFor(vs, k) > 0.0
  {
    if vs != [] {
      PositiveSums(vs[..|vs| - 1], k);
      if exists i :: 0 <= i < |vs| && vs[i].option == k {
        var i :| 0 <= i < |vs| && vs[i].option == k;
        if i < |vs| - 1 {
          assert vs[..|vs| - 1][i].option == k;
        }
      }
    }
  }

  lemma {:induction false} TwoSharesFit(vs: seq<Vote>, j: Key, k: Key)
    requires PositiveWeights(vs) && j != k
    ensures WeightFor(vs, j) + WeightFor(vs, k) <= TotalWeight(vs)
  {
    if vs != [] {
      TwoSharesFit(vs[..|vs| - 1], j, k);
    }
  }

  /** Each option has exactly one row. */
  lemma RowOf(options: seq<Key>, vs: seq<Vote>, k: Key) returns (p: nat)
    requires k in options
    ensures var rows := TallyOf(options, vs).options;
            p < |rows| && rows[p] == Entry(k, RowFor(vs, k)) && forall i :: 0 <= i < |rows| && rows[i].key == k ==> i == p
  {
    var ks := OptionKeys(options);
    OptionKeysAreTheOptions(options);
    assert k in ks;
    p :| 0 <= p < |ks| && ks[p] == k;
  }

  /** With positive weights there is no outcome exactly when nobody voted. */
  lemma NoOutcomeMeansNoVotes(options: seq<Key>, vs: seq<Vote>)
    requires Countable(options, vs) && PositiveWeights(vs)
    ensures Leader(TallyOf(options, vs).options).1 == None <==> vs == []
  {
    var rows := TallyOf(options, vs).options;
    LeaderIsFirstMaximum(rows);
    if vs != [] {
      var p := RowOf(options, vs, vs[0].option);
      PositiveSums(vs, rows[p].key);
      assert rows[p].value.weight > 0.0;
    }
  }

  /** An option with more than half of the total weight wins, wherever it stands in the listing. */
  lemma MajorityWins(options: seq<Key>, vs: seq<Vote>, k: Key)
    requires Countable(options, vs) && PositiveWeights(vs) && k in options
    requires WeightFor(vs, k) > TotalWeight(vs) / 2.0
    ensures Leader(TallyOf(options, vs).options).1 == Some(k)
  {
    var rows := TallyOf(options, vs).options;
    var w := RowOf(options, vs, k);
    PositiveSums(vs, k);
    forall i | 0 <= i < |rows| && i != w ensures rows[i].value.weight < rows[w].value.weight {
      TwoSharesFit(vs, rows[i].key, k);
    }
    FirstMaximumWins(rows, w);
  }

  lemma OneMoreVote(options: seq<Key>, vs: seq<Vote>, v: Vote, w: nat)
    requires w < |TallyOf(options, vs).options| && TallyOf(options, vs).options[w].key == v.option
    requires FirstMaximum(TallyOf(options, vs).options, w) && v.weight >= 0.0
    ensures FirstMaximum(TallyOf(options, vs + [v]).options, w)
  {
    var rows, now, ks := TallyOf(options, vs).options, TallyOf(options, vs + [v]).options, OptionKeys(options);
    OptionKeysAreTheOptions(options);
    assert (vs + [v])[..|vs|] == vs;
    forall i | 0 <= i < |rows|
      ensures now[i].value.weight == rows[i].value.weight + (if i == w then Effective(v.weight) else 0.0)
    {
      assert rows[i] == Entry(ks[i], RowFor(vs, ks[i])) && now[i] == Entry(ks[i], RowFor(vs + [v], ks[i]));
    }
  }

  /** One more vote for the winner, wherever it is enumerated, keeps it the winner. */
  lemma VoteForWinnerKeepsIt(options: seq<Key>, vs: seq<Vote>, more: seq<Vote>, v: Vote)
    requires multiset(more) == multiset(vs) + multiset{v}
    requires v.weight >= 0.0
    requires Leader(TallyOf(options, vs).options).1 == Some(v.option)
    ensures Leader(TallyOf(options, more).options).1 == Some(v.option)
  {
    TallyIgnoresOrder(options, more, vs + [v]);
    var rows := TallyOf(options, vs).options;
    LeaderIsFirstMaximum(rows);
    var w: nat :| FirstMaximum(rows, w) && Leader(rows) == (rows[w].value.weight, Some(rows[w].key));
    OneMoreVote(options, vs, v, w);
    FirstMaximumWins(TallyOf(options, vs + [v]).options, w);
  }

  // ---------- the two-thirds rule ----------

  predicate Supermajority(row: Row) {
    row.Complete? && row.weightedPercentage >= 66.67
  }

  /** What the two-thirds loop is written to return: the first option over the threshold. */
  function IntendedSupermajority(rows: Obj<Row>): Option<Key> {
    if rows == [] then None
    else if Supermajority(rows[0].value) then Some(rows[0].key)
    else IntendedSupermajority(rows[1..])
  }

  lemma SupermajorityIsMajority(vs: seq<Vote>, k: Key)
    requires PositiveWeights(vs) && Supermajority(RowFor(vs, k))
    ensures WeightFor(vs, k) > TotalWeight(vs) / 2.0
  {
    var w, t := WeightFor(vs, k), TotalWeight(vs);
    assert t > 0.0 && w / t > 0.5;
    assert w == w / t * t;
  }

  /** With positive weights at most one option reaches two thirds, and it is the simple-majority winner. */
  lemma SupermajorityIsUnique(options: seq<Key>, vs: seq<Vote>, i: nat)
    requires Countable(options, vs) && PositiveWeights(vs)
    requires i < |TallyOf(options, vs).options| && Supermajority(TallyOf(options, vs).options[i].value)
    ensures var rows := TallyOf(options, vs).options;
            && (forall j :: 0 <= j < |rows| && Supermajority(rows[j].value) ==> j == i)
            && IntendedSupermajority(rows) == Some(rows[i].key)
            && Leader(rows).1 == Some(rows[i].key)
  {
    var rows := TallyOf(options, vs).options;
    OptionKeysAreTheOptions(options);
    SupermajorityIsMajority(vs, rows[i].key);
    assert rows[i].key in OptionKeys(options);
    MajorityWins(options, vs, rows[i].key);
    forall j | 0 <= j < |rows| && Supermajority(rows[j].value) ensures j == i {
      SupermajorityIsMajority(vs, rows[j].key);
      if j != i {
        TwoSharesFit(vs, rows[i].key, rows[j].key);
      }
    }
    FirstSupermajority(rows, i);
  }

  lemma {:induction false} FirstSupermajority(rows: Obj<Row>, i: nat)
    requires i < |rows| && Supermajority(rows[i].value)
    requires forall j :: 0 <= j < i ==> !Supermajority(rows[j].value)
    ensures IntendedSupermajority(rows) == Some(rows[i].key)
  {
    if i > 0 {
      FirstSupermajority(rows[1..], i - 1);
    }
  }

  /** So the intended answer does not depend on the order in which the options are listed. */
  lemma SupermajorityIgnoresOrder(a: seq<Key>, b: seq<Key>, vs: seq<Vote>)
    requires (forall k :: k in a <==> k in b) && Countable(a, vs) && PositiveWeights(vs)
    ensures IntendedSupermajority(TallyOf(a, vs).options) == IntendedSupermajority(TallyOf(b, vs).options)
  {
    var ra, rb := TallyOf(a, vs).options, TallyOf(b, vs).options;
    OptionKeysAreTheOptions(a);
    OptionKeysAreTheOptions(b);
    if i :| 0 <= i < |ra| && Supermajority(ra[i].value) {
      SupermajorityIsUnique(a, vs, i);
      assert OptionKeys(a)[i] in OptionKeys(b);
      var j :| 0 <= j < |rb| && OptionKeys(b)[j] == OptionKeys(a)[i];
      SupermajorityIsUnique(b, vs, j);
    } else {
      forall j | 0 <= j < |rb| ensures !Supermajority(rb[j].value) {
        assert OptionKeys(b)[j] in OptionKeys(a);
        var i :| 0 <= i < |ra| && OptionKeys(a)[i] == OptionKeys(b)[j];
        assert ra[i].value == rb[j].value;
      }
      NoSupermajority(ra);
      NoSupermajority(rb);
    }
  }

  lemma {:induction false} NoSupermajority(rows: Obj<Row>)
    ensures IntendedSupermajority(rows) == None <==> forall i :: 0 <= i < |rows| ==> !Supermajority(rows[i].value)
  {
    if rows != [] {
      NoSupermajority(rows[1..]);
      assert forall i :: 0 < i < |rows| ==> rows[i] == rows[1..][i - 1];
    }
  }

  /**
   The code meets its two-thirds rule exactly when no option has 66.67 percent of the weight
   (or the option that does is itself called "no consensus").
   */
  lemma ProtocolOutcomeIsRight(options: seq<Key>, vs: seq<Vote>)
    requires Countable(options, vs) && PositiveWeights(vs)
    ensures var rows := TallyOf(options, vs).options;
            var intended := if IntendedSupermajority(rows).Some? then IntendedSupermajority(rows) else Some(NO_CONSENSUS);
            Outcome(rows, Protocol) == intended <==>
            forall k :: k in options && Reaches(vs, k) ==> k == NO_CONSENSUS
  {
    var rows := TallyOf(options, vs).options;
    OptionKeysAreTheOptions(options);
    forall k | k in options ensures Supermajority(RowFor(vs, k)) <==> Reaches(vs, k) {
      ThresholdIs(vs, k);
    }
    if i :| 0 <= i < |rows| && Supermajority(rows[i].value) {
      assert rows[i].key in OptionKeys(options);
      SupermajorityIsUnique(options, vs, i);
      forall k | k in options && Reaches(vs, k) ensures k == rows[i].key {
        var j := RowOf(options, vs, k);
      }
      assert Reaches(vs, rows[i].key);
    } else {
      NoSupermajority(rows);
      forall k | k in options ensures !Reaches(vs, k) {
        var j := RowOf(options, vs, k);
      }
    }
  }

  /** The option has 66.67 percent of the weight. */
  predicate Reaches(vs: seq<Vote>, k: Key) {
    TotalWeight(vs) > 0.0 && 10000.0 * WeightFor(vs, k) >= 6667.0 * TotalWeight(vs)
  }

  lemma ThresholdIs(vs: seq<Vote>, k: Key)
    ensures Supermajority(RowFor(vs, k)) <==> Reaches(vs, k)
  {
    var w, t := WeightFor(vs, k), TotalWeight(vs);
    if t > 0.0 {
      assert w == w / t * t;
      assert w / t * 100.0 >= 66.67 <==> w / t >= 0.6667;
      assert w / t >= 0.6667 <==> w / t * t >= 0.6667 * t;
    }
  }

  /** A unanimous protocol proposal: every vote says "yes", and the outcome is still "no consensus". */
  lemma UnanimousProtocolFails()
    ensures var vs := [Vote(Name("yes"), 1.0, 0)];
            var rows := TallyOf([Name("yes"), Name("no")], vs).options;
            && IntendedSupermajority(rows) == Some(Name("yes"))
            && Outcome(rows, Protocol) == Some(NO_CONSENSUS)
  {
    var options, vs := [Name("yes"), Name("no")], [Vote(Name("yes"), 1.0, 0)];
    var rows := TallyOf(options, vs).options;
    OptionKeysAreTheOptions(options);
    assert options[0] in OptionKeys(options);
    var i :| 0 <= i < |rows| && OptionKeys(options)[i] == Name("yes");
    assert vs[..0] == [];
    assert WeightFor(vs, Name("yes")) == 1.0 && TotalWeight(vs) == 1.0;
    SupermajorityIsUnique(options, vs, i);
  }
}
