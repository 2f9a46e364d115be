/**
 The iteration list of a JavaScript Map (ECMA-262, section 24.1): keys in order of insertion.
 A deleted entry leaves an empty slot, so a loop that walks the list by position while it
 deletes neither skips nor repeats an entry.
 */
module JsMap {
  import opened Basics

  type Slots<K> = seq<Option<K>>

  /** The filled slots are exactly `keys`, each once. */
  ghost predicate Lists<K(!new)>(slots: Slots<K>, keys: set<K>) {
    && (forall i :: 0 <= i < |slots| && slots[i].Some? ==> slots[i].value in keys)
    && (forall k :: k in keys ==> Some(k) in slots)
    && (forall i, j :: 0 <= i < j < |slots| && slots[i].Some? ==> slots[i] != slots[j])
  }

  /** `set`: a key that is already there keeps its slot. */
  function Add<K(==)>(slots: Slots<K>, k: K): Slots<K> {
    if Some(k) in slots then slots else slots + [Some(k)]
  }

  /** `delete`. */
  function Erase<K(==)>(slots: Slots<K>, k: K): (r: Slots<K>)
    ensures |r| == |slots|
    ensures forall i :: 0 <= i < |slots| ==> r[i] == if slots[i] == Some(k) then None else slots[i]
  {
    seq(|slots|, i requires 0 <= i < |slots| => if slots[i] == Some(k) then None else slots[i])
  }

  lemma AddLists<K(!new)>(slots: Slots<K>, keys: set<K>, k: K)
    requires Lists(slots, keys)
    ensures Lists(Add(slots, k), keys + {k})
    ensures slots <= Add(slots, k)
  {
    var r := Add(slots, k);
    if Some(k) in slots {
      var i :| 0 <= i < |slots| && slots[i] == Some(k);
      assert keys + {k} == keys;
    } else {
      assert r[|slots|] == Some(k);
      forall x | x in keys ensures Some(x) in r {
        var i :| 0 <= i < |slots| && slots[i] == Some(x);
        assert r[i] == Some(x);
      }
    }
  }

  lemma EraseLists<K(!new)>(slots: Slots<K>, keys: set<K>, k: K)
    requires Lists(slots, keys)
    ensures Lists(Erase(slots, k), keys - {k})
  {
    var r := Erase(slots, k);
    forall x | x in keys - {k} ensures Some(x) in r {
      var i :| 0 <= i < |slots| && slots[i] == Some(x);
      assert r[i] == Some(x);
    }
  }

  /** The keys in the slots, in order. */
  function Entries<K>(slots: Slots<K>): seq<K> {
    if slots == [] then []
    else
      var last := slots[|slots| - 1];
      Entries(slots[..|slots| - 1]) + if last.Some? then [last.value] else []
  }

  lemma {:induction false} EntriesOf<K(!new)>(slots: Slots<K>, keys: set<K>, i: nat)
    requires Lists(slots, keys) && i <= |slots|
    ensures Distinct(Entries(slots[..i]))
    ensures forall k :: k in Entries(slots[..i]) <==> Some(k) in slots[..i]
    ensures forall k :: k in Entries(slots[..i]) ==> k in keys
  {
    if i > 0 {
      assert slots[..i][..i - 1] == slots[..i - 1];
      EntriesOf(slots, keys, i - 1);
      assert slots[..i] == slots[..i - 1] + [slots[i - 1]];
    }
  }

  lemma EntriesStep<K>(slots: Slots<K>, i: nat)
    requires i < |slots|
    ensures Entries(slots[..i + 1]) == if slots[i].Some? then Entries(slots[..i]) + [slots[i].value] else Entries(slots[..i])
  {
    assert slots[..i + 1][..i] == slots[..i];
    assert Entries(slots[..i]) + [] == Entries(slots[..i]);
  }

  lemma {:induction false} EntriesPrefix<K>(slots: Slots<K>, i: nat)
    requires i <= |slots|
    ensures Entries(slots[..i]) <= Entries(slots)
    decreases |slots| - i
  {
    if i < |slots| {
      EntriesStep(slots, i);
      EntriesPrefix(slots, i + 1);
    } else {
      assert slots[..i] == slots;
    }
  }
}
