/**
 A plain JavaScript object used as a table: its own properties, in the order in which
 `Object.entries` lists them (ECMA-262, section 10.1.11): array-index names first,
 ascending, then the other names in the order in which they were created.
 */
module JsObject {
  import opened Basics

  /** An array index: a whole number below 2^32 - 1. */
  type ArrayIndex = n: nat | n < 0xFFFF_FFFF

  /** A property name: the canonical text of an array index, or any other string. */
  datatype Key = Index(value: ArrayIndex) | Name(text: string)

  datatype Entry<+V> = Entry(key: Key, value: V)

  type Obj<V> = seq<Entry<V>>

  /** `a` is listed before `b` whatever the order of creation. */
  predicate Precedes(a: Key, b: Key) {
    a.Index? && (b.Index? ==> a.value < b.value)
  }

  /** No name twice, and nothing is listed before a name that must precede it. */
  ghost predicate WellOrdered<V>(o: Obj<V>) {
    forall i, j :: 0 <= i < j < |o| ==> o[i].key != o[j].key && !Precedes(o[j].key, o[i].key)
  }

  predicate Has<V>(o: Obj<V>, k: Key) {
    exists i :: 0 <= i < |o| && o[i].key == k
  }

  /** The position of `k`, or |o| when there is no such property. */
  function Position<V>(o: Obj<V>, k: Key): (p: nat)
    ensures p <= |o|
    ensures p < |o| <==> Has(o, k)
    ensures p < |o| ==> o[p].key == k
    ensures forall i :: 0 <= i < p ==> o[i].key != k
  {
    if o == [] then 0
    else if o[0].key == k then 0
    else
      var p := Position(o[1..], k);
      assert p < |o[1..]| ==> o[p + 1].key == k;
      assert forall i :: 0 < i <= p ==> o[i].key == o[1..][i - 1].key;
      assert Has(o, k) ==> Has(o[1..], k) by {
        if Has(o, k) {
          var i :| 0 <= i < |o| && o[i].key == k;
          assert o[1..][i - 1].key == k;
        }
      }
      p + 1
  }

  function Get<V>(o: Obj<V>, k: Key): Option<V> {
    var p := Position(o, k);
    if p < |o| then Some(o[p].value) else None
  }

  /** Assignment to a property: an existing one keeps its place, a new one gets the place the order gives it. */
  function Put<V>(o: Obj<V>, k: Key, v: V): Obj<V> {
    if o == [] then [Entry(k, v)]
    else if o[0].key == k then [Entry(k, v)] + o[1..]
    else if Precedes(k, o[0].key) then [Entry(k, v)] + o
    else [o[0]] + Put(o[1..], k, v)
  }

  function Keys<V>(o: Obj<V>): (ks: seq<Key>)
    ensures |ks| == |o| && forall i :: 0 <= i < |o| ==> ks[i] == o[i].key
  {
    seq(|o|, i requires 0 <= i < |o| => o[i].key)
  }

  function Values<V>(o: Obj<V>): (vs: seq<V>)
    ensures |vs| == |o| && forall i :: 0 <= i < |o| ==> vs[i] == o[i].value
  {
    seq(|o|, i requires 0 <= i < |o| => o[i].value)
  }

  lemma WellOrderedTail<V>(o: Obj<V>)
    requires WellOrdered(o) && o != []
    ensures WellOrdered(o[1..])
  {
    forall i, j | 0 <= i < j < |o[1..]|
      ensures o[1..][i].key != o[1..][j].key && !Precedes(o[1..][j].key, o[1..][i].key)
    {
      assert o[1..][i] == o[i + 1] && o[1..][j] == o[j + 1];
    }
  }

  /** A property that exists is overwritten where it stands. */
  lemma {:induction false} PutExisting<V>(o: Obj<V>, k: Key, v: V, p: nat)
    requires WellOrdered(o) && p < |o| && o[p].key == k
    ensures Put(o, k, v) == o[p := Entry(k, v)]
  {
    if p > 0 {
      assert o[0].key != k && !Precedes(k, o[0].key);
      WellOrderedTail(o);
      PutExisting(o[1..], k, v, p - 1);
    }
  }

  lemma SplitTail<T>(o: seq<T>, q: nat)
    requires q < |o|
    ensures o[..q + 1] == [o[0]] + o[1..][..q] && o[q + 1..] == o[1..][q..]
  {
  }

  /** A property that does not exist is inserted at exactly one place, the others keep their order. */
  lemma {:induction false} PutNew<V>(o: Obj<V>, k: Key, v: V) returns (p: nat)
    requires WellOrdered(o) && !Has(o, k)
    ensures p <= |o| && Put(o, k, v) == o[..p] + [Entry(k, v)] + o[p..]
    ensures k.Name? ==> p == |o|
    ensures forall i :: 0 <= i < p ==> !Precedes(k, o[i].key)
    ensures p < |o| ==> Precedes(k, o[p].key)
  {
    hide WellOrdered;
    if o == [] || Precedes(k, o[0].key) {
      p := 0;
    } else {
      WellOrderedTail(o);
      assert forall i :: 0 <= i < |o[1..]| ==> o[1..][i] == o[i + 1];
      var q := PutNew(o[1..], k, v);
      p := q + 1;
      SplitTail(o, q);
    }
  }

  lemma PutExistingSound<V>(o: Obj<V>, k: Key, v: V)
    requires WellOrdered(o) && Has(o, k)
    ensures WellOrdered(Put(o, k, v))
    ensures forall x :: Has(Put(o, k, v), x) <==> Has(o, x)
    ensures forall x :: Get(Put(o, k, v), x) == if x == k then Some(v) else Get(o, x)
  {
    var w := Put(o, k, v);
    PutExisting(o, k, v, Position(o, k));
    assert forall i :: 0 <= i < |o| ==> w[i].key == o[i].key;
    forall x ensures Has(w, x) <==> Has(o, x) {
      assert forall i :: 0 <= i < |o| ==> w[i].key == o[i].key;
    }
    forall x ensures Get(w, x) == if x == k then Some(v) else Get(o, x) {
      UniquePosition(w, x, Position(o, x));
    }
  }

  /** An entry put between those that do not come after it and those that do keeps the order. */
  lemma InsertKeepsOrder<V>(o: Obj<V>, e: Entry<V>, p: nat)
    requires WellOrdered(o) && !Has(o, e.key) && p <= |o|
    requires forall i :: 0 <= i < p ==> !Precedes(e.key, o[i].key)
    requires p < |o| ==> Precedes(e.key, o[p].key)
    ensures WellOrdered(o[..p] + [e] + o[p..])
  {
    var w := o[..p] + [e] + o[p..];
    forall i, j | 0 <= i < j < |w| ensures w[i].key != w[j].key && !Precedes(w[j].key, w[i].key) {
      if i == p {
        assert w[j] == o[j - 1];
        if p < j - 1 { assert !Precedes(o[j - 1].key, o[p].key); }
      } else if j == p {
        assert w[i] == o[i];
      } else {
        assert w[i] == o[if i < p then i else i - 1] && w[j] == o[if j < p then j else j - 1];
      }
    }
  }

  lemma InsertAdds<V>(o: Obj<V>, e: Entry<V>, p: nat, x: Key)
    requires WellOrdered(o) && !Has(o, e.key) && p <= |o| && WellOrdered(o[..p] + [e] + o[p..])
    ensures var w := o[..p] + [e] + o[p..];
            && (Has(w, x) <==> Has(o, x) || x == e.key)
            && Get(w, x) == if x == e.key then Some(e.value) else Get(o, x)
  {
    hide WellOrdered, Position;
    var w := o[..p] + [e] + o[p..];
    if x == e.key {
      assert w[p].key == x;
      UniquePosition(w, x, p);
    } else {
      var i := Position(o, x);
      assert forall j :: 0 <= j < |o| ==> w[if j < p then j else j + 1] == o[j];
      UniquePosition(w, x, if i < p then i else i + 1);
    }
  }

  lemma PutNewSound<V>(o: Obj<V>, k: Key, v: V)
    requires WellOrdered(o) && !Has(o, k)
    ensures WellOrdered(Put(o, k, v))
    ensures forall x :: Has(Put(o, k, v), x) <==> Has(o, x) || x == k
    ensures forall x :: Get(Put(o, k, v), x) == if x == k then Some(v) else Get(o, x)
  {
    var p := PutNew(o, k, v);
    InsertKeepsOrder(o, Entry(k, v), p);
    forall x {
      InsertAdds(o, Entry(k, v), p, x);
    }
  }

  /** Assignment keeps the listing order and changes the value of one name only. */
  lemma PutSound<V>(o: Obj<V>, k: Key, v: V)
    requires WellOrdered(o)
    ensures WellOrdered(Put(o, k, v))
    ensures forall x :: Has(Put(o, k, v), x) <==> Has(o, x) || x == k
    ensures forall x :: Get(Put(o, k, v), x) == if x == k then Some(v) else Get(o, x)
  {
    if Has(o, k) {
      PutExistingSound(o, k, v);
    } else {
      PutNewSound(o, k, v);
    }
  }

  lemma UniquePosition<V>(o: Obj<V>, k: Key, p: nat)
    requires WellOrdered(o) && p <= |o|
    requires if p < |o| then o[p].key == k else !Has(o, k)
    ensures Position(o, k) == p
  {
  }

  /** The names of `ks` that are not array indices, each once, in order of first occurrence. */
  function NamesInOrder(ks: seq<Key>): seq<Key> {
    if ks == [] then []
    else
      var front, k := NamesInOrder(ks[..|ks| - 1]), ks[|ks| - 1];
      if k.Name? && k !in front then front + [k] else front
  }

  lemma {:induction false} NamesInOrderMembers(ks: seq<Key>)
    ensures forall k :: k in NamesInOrder(ks) <==> k in ks && k.Name?
  {
    if ks != [] {
      NamesInOrderMembers(ks[..|ks| - 1]);
      assert ks == ks[..|ks| - 1] + [ks[|ks| - 1]];
    }
  }

  /** `ks` lists array indices and then exactly `names`. */
  ghost predicate EndsWithNames(ks: seq<Key>, names: seq<Key>) {
    && |names| <= |ks|
    && ks[|ks| - |names|..] == names
    && (forall i :: 0 <= i < |ks| - |names| ==> ks[i].Index?)
    && (forall i :: 0 <= i < |names| ==> names[i].Name?)
  }

  /** The object left by assigning `v` to each of `ks` in turn. */
  function Build<V>(ks: seq<Key>, v: V): Obj<V> {
    if ks == [] then [] else Put(Build(ks[..|ks| - 1], v), ks[|ks| - 1], v)
  }

  /** Assigning one more property adds its name at the end of the names in order, unless it is there. */
  lemma PutNames<V>(o: Obj<V>, k: Key, v: V, names: seq<Key>)
    requires WellOrdered(o) && EndsWithNames(Keys(o), names)
    ensures EndsWithNames(Keys(Put(o, k, v)), if k.Name? && !Has(o, k) then names + [k] else names)
  {
    if Has(o, k) {
      PutExisting(o, k, v, Position(o, k));
      assert Keys(Put(o, k, v)) == Keys(o);
    } else {
      var p := PutNew(o, k, v);
      assert Keys(Put(o, k, v)) == Keys(o)[..p] + [k] + Keys(o)[p..];
      InsertAmongNames(Keys(o), p, k, names);
    }
  }

  lemma InsertedTail(ks: seq<Key>, p: nat, k: Key, start: nat)
    requires p <= start <= |ks|
    ensures (ks[..p] + [k] + ks[p..])[start + 1..] == ks[start..]
  {
  }

  lemma InsertAmongNames(ks: seq<Key>, p: nat, k: Key, names: seq<Key>)
    requires p <= |ks| && EndsWithNames(ks, names)
    requires k.Name? ==> p == |ks|
    requires forall i :: 0 <= i < p ==> !Precedes(k, ks[i])
    ensures EndsWithNames(ks[..p] + [k] + ks[p..], if k.Name? then names + [k] else names)
  {
    var start := |ks| - |names|;
    var w := ks[..p] + [k] + ks[p..];
    if k.Name? {
      assert w == ks + [k];
      assert w[start..] == ks[start..] + [k];
    } else {
      assert p <= start by {
        assert start < p ==> ks[start] == names[0] && Precedes(k, ks[start]);
      }
      InsertedTail(ks, p, k, start);
      assert forall i :: 0 <= i < start + 1 ==> w[i] == if i < p then ks[i] else if i == p then k else ks[i - 1];
    }
  }

  lemma {:induction false} BuildTable<V>(ks: seq<Key>, v: V)
    ensures WellOrdered(Build(ks, v))
    ensures forall k :: Has(Build(ks, v), k) <==> k in ks
    ensures forall i :: 0 <= i < |Build(ks, v)| ==> Build(ks, v)[i].value == v
  {
    if ks != [] {
      var front, k := ks[..|ks| - 1], ks[|ks| - 1];
      BuildTable(front, v);
      PutSound(Build(front, v), k, v);
      assert ks == front + [k];
      PutValues(Build(front, v), k, v);
    }
  }

  lemma PutValues<V>(o: Obj<V>, k: Key, v: V)
    requires WellOrdered(o)
    requires forall i :: 0 <= i < |o| ==> o[i].value == v
    ensures forall i :: 0 <= i < |Put(o, k, v)| ==> Put(o, k, v)[i].value == v
  {
    if Has(o, k) {
      PutExisting(o, k, v, Position(o, k));
    } else {
      var p := PutNew(o, k, v);
    }
  }

  /**
   The listing order of a built object is the standard's: exactly the names assigned, each once,
   all array indices before all other names, the indices ascending, the others by first assignment.
   */
  lemma {:induction false} BuildOrder<V>(ks: seq<Key>, v: V)
    ensures WellOrdered(Build(ks, v))
    ensures forall k :: Has(Build(ks, v), k) <==> k in ks
    ensures EndsWithNames(Keys(Build(ks, v)), NamesInOrder(ks))
  {
    BuildTable(ks, v);
    if ks != [] {
      var front, k := ks[..|ks| - 1], ks[|ks| - 1];
      BuildOrder(front, v);
      var o := Build(front, v);
      PutNames(o, k, v, NamesInOrder(front));
      NamesInOrderMembers(front);
    }
  }

  /** In such a listing no array index comes after another name or after a larger index. */
  lemma IndicesFirst<V>(o: Obj<V>, i: nat, j: nat)
    requires WellOrdered(o) && i < j < |o| && o[j].key.Index?
    ensures o[i].key.Index? && o[i].key.value < o[j].key.value
  {
    assert !Precedes(o[j].key, o[i].key);
  }
}
