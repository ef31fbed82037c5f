/**
 The least-recently-written caches of the deduplication filter: a map from keys to elements of a list, newest
 first.
 */
module RecencyCache {
  import opened Options

  datatype Entry<V> = Entry(key: string, value: V)

  // ---- what a cache holds ----

  function Keys<V>(c: seq<Entry<V>>): set<string> {
    if c == [] then {} else {c[0].key} + Keys(c[1..])
  }

  predicate KeysDistinct<V>(c: seq<Entry<V>>) {
    c == [] || (c[0].key !in Keys(c[1..]) && KeysDistinct(c[1..]))
  }

  function Without<V>(c: seq<Entry<V>>, key: string): seq<Entry<V>> {
    if c == [] then []
    else if c[0].key == key then Without(c[1..], key)
    else [c[0]] + Without(c[1..], key)
  }

  /** One write: a known key moves to the front, a new one pushes out the oldest of a full cache. */
  function Write<V>(c: seq<Entry<V>>, capacity: int, e: Entry<V>): seq<Entry<V>> {
    if e.key in Keys(c) then [e] + Without(c, e.key)
    else if |c| >= capacity && c != [] then [e] + c[..|c| - 1]
    else [e] + c
  }

  function Run<V>(writes: seq<Entry<V>>, capacity: int): seq<Entry<V>> {
    if writes == [] then []
    else Write(Run(writes[..|writes| - 1], capacity), capacity, writes[|writes| - 1])
  }

  /** Every key ever written with its last value, the latest write first. */
  function Recency<V>(writes: seq<Entry<V>>): seq<Entry<V>> {
    if writes == [] then []
    else
      var last := writes[|writes| - 1];
      [last] + Without(Recency(writes[..|writes| - 1]), last.key)
  }

  function Bound(capacity: int): nat {
    if capacity < 1 then 1 else capacity
  }

  function Newest<V>(c: seq<Entry<V>>, n: nat): seq<Entry<V>> {
    if c == [] || n == 0 then [] else [c[0]] + Newest(c[1..], n - 1)
  }

  lemma {:induction false} NewestIsPrefix<V>(c: seq<Entry<V>>, n: nat)
    ensures Newest(c, n) == if |c| <= n then c else c[..n]
  {
    if c != [] && n > 0 {
      NewestIsPrefix(c[1..], n - 1);
    }
  }

  lemma {:induction false} WithoutAbsent<V>(c: seq<Entry<V>>, key: string)
    requires key !in Keys(c)
    ensures Without(c, key) == c
  {
    if c != [] {
      WithoutAbsent(c[1..], key);
    }
  }

  lemma {:induction false} WithoutKeys<V>(c: seq<Entry<V>>, key: string)
    ensures Keys(Without(c, key)) == Keys(c) - {key}
    ensures KeysDistinct(c) ==> KeysDistinct(Without(c, key))
  {
    if c != [] {
      WithoutKeys(c[1..], key);
      var rest := Without(c[1..], key);
      assert ([c[0]] + rest)[1..] == rest;
    }
  }

  lemma {:induction false} WithoutHolds<V>(c: seq<Entry<V>>, key: string, e: Entry<V>)
    ensures e in Without(c, key) <==> e in c && e.key != key
  {
    if c != [] {
      WithoutHolds(c[1..], key, e);
      assert c == [c[0]] + c[1..];
    }
  }

  lemma {:induction false} WithoutAt<V>(c: seq<Entry<V>>, key: string, k: nat)
    requires KeysDistinct(c) && k < |c| && c[k].key == key
    ensures Without(c, key) == c[..k] + c[k + 1..] && key in Keys(c)
  {
    if k == 0 {
      WithoutAbsent(c[1..], key);
    } else {
      WithoutAt(c[1..], key, k - 1);
    }
  }

  lemma {:induction false} RecencyIsDistinct<V>(writes: seq<Entry<V>>)
    ensures KeysDistinct(Recency(writes))
  {
    if writes != [] {
      var (before, last) := (writes[..|writes| - 1], writes[|writes| - 1]);
      RecencyIsDistinct(before);
      WithoutKeys(Recency(before), last.key);
      assert Recency(writes)[1..] == Without(Recency(before), last.key);
    }
  }

  ghost predicate LastOfItsKey<V>(writes: seq<Entry<V>>, i: int) {
    0 <= i < |writes| && forall j | i < j < |writes| :: writes[j].key != writes[i].key
  }

  /** An entry is listed exactly when it is the last write of its key. */
  lemma {:induction false} RecencyIsLastWrites<V(!new)>(writes: seq<Entry<V>>, e: Entry<V>)
    ensures e in Recency(writes) <==> exists i :: LastOfItsKey(writes, i) && writes[i] == e
  {
    if writes != [] {
      var (before, last) := (writes[..|writes| - 1], writes[|writes| - 1]);
      RecencyIsLastWrites(before, e);
      WithoutHolds(Recency(before), last.key, e);
      assert LastOfItsKey(writes, |before|);
      if i :| LastOfItsKey(before, i) && before[i] == e && e.key != last.key {
        assert LastOfItsKey(writes, i) && writes[i] == e;
      }
      if i :| LastOfItsKey(writes, i) && writes[i] == e && i < |before| {
        assert writes[|before|].key != e.key;
        assert LastOfItsKey(before, i) && before[i] == e;
      }
    }
  }

  lemma {:induction false} NewestWithoutKnown<V>(r: seq<Entry<V>>, n: nat, key: string)
    requires KeysDistinct(r) && n > 0 && key in Keys(Newest(r, n))
    ensures Without(Newest(r, n), key) == Newest(Without(r, key), n - 1)
  {
    var rest := Newest(r[1..], n - 1);
    assert Newest(r, n)[1..] == rest;
    NewestKeys(r[1..], n - 1);
    if r[0].key == key {
      WithoutAbsent(r[1..], key);
      WithoutAbsent(rest, key);
    } else {
      NewestWithoutKnown(r[1..], n - 1, key);
      assert Without(r, key)[1..] == Without(r[1..], key);
    }
  }

  lemma {:induction false} NewestKeys<V>(r: seq<Entry<V>>, n: nat)
    ensures Keys(Newest(r, n)) <= Keys(r)
  {
    if r != [] && n > 0 {
      NewestKeys(r[1..], n - 1);
      assert Newest(r, n)[1..] == Newest(r[1..], n - 1);
    }
  }

  lemma {:induction false} NewestWithoutForgotten<V>(r: seq<Entry<V>>, n: nat, key: string)
    requires n > 0 && key !in Keys(Newest(r, n))
    ensures Newest(r, n - 1) == Newest(Without(r, key), n - 1)
  {
    if r != [] && n > 1 {
      assert Newest(r, n)[1..] == Newest(r[1..], n - 1);
      NewestWithoutForgotten(r[1..], n - 1, key);
      var rest := Without(r[1..], key);
      assert Without(r, key) == [r[0]] + rest && Without(r, key)[1..] == rest;
      assert Newest(Without(r, key), n - 1) == [r[0]] + Newest(rest, n - 2);
    } else if r != [] {
      assert Newest(r, 0) == Newest(Without(r, key), 0);
    }
  }

  lemma WriteTakesNewest<V>(r: seq<Entry<V>>, capacity: int, e: Entry<V>)
    requires KeysDistinct(r)
    ensures Write(Newest(r, Bound(capacity)), capacity, e) == Newest([e] + Without(r, e.key), Bound(capacity))
  {
    var n := Bound(capacity);
    var c := Newest(r, n);
    assert ([e] + Without(r, e.key))[1..] == Without(r, e.key);
    if e.key in Keys(c) {
      NewestWithoutKnown(r, n, e.key);
    } else {
      NewestWithoutForgotten(r, n, e.key);
      NewestIsPrefix(r, n);
      NewestIsPrefix(r, n - 1);
    }
  }

  /** After any writes the cache holds exactly the most recently written keys, as many as its bound, each
      with its last value and the latest first. */
  lemma {:induction false} HoldsMostRecent<V>(writes: seq<Entry<V>>, capacity: int)
    ensures Run(writes, capacity) == Newest(Recency(writes), Bound(capacity))
  {
    if writes != [] {
      var before := writes[..|writes| - 1];
      HoldsMostRecent(before, capacity);
      RecencyIsDistinct(before);
      WriteTakesNewest(Recency(before), capacity, writes[|writes| - 1]);
    }
  }

  // ---- the objects ----

  /** An element of the library's list; the map of the cache points at it. */
  class Element<V> {
    const key: string
    var value: V

    constructor (key: string, value: V)
      ensures this.key == key && this.value == value
    {
      this.key := key;
      this.value := value;
    }
  }

  lemma {:induction false} KeyPosition<V>(c: seq<Entry<V>>, key: string) returns (k: nat)
    requires key in Keys(c)
    ensures k < |c| && c[k].key == key
  {
    if c[0].key == key {
      k := 0;
    } else {
      k := KeyPosition(c[1..], key);
      k := k + 1;
    }
  }

  lemma {:induction false} KeysSplit<V>(c: seq<Entry<V>>, k: nat)
    requires k <= |c|
    ensures Keys(c) == Keys(c[..k]) + Keys(c[k..])
    ensures KeysDistinct(c) ==> KeysDistinct(c[..k]) && Keys(c[..k]) !! Keys(c[k..])
  {
    if k > 0 {
      KeysSplit(c[1..], k - 1);
      assert c[..k][1..] == c[1..][..k - 1];
      assert c[1..][k - 1..] == c[k..];
    } else {
      assert c[k..] == c;
    }
  }

  lemma LastKey<V>(c: seq<Entry<V>>)
    requires c != [] && KeysDistinct(c)
    ensures var (front, last) := (c[..|c| - 1], c[|c| - 1].key);
      Keys(front) == Keys(c) - {last} && KeysDistinct(front)
  {
    KeysSplit(c, |c| - 1);
    assert c[|c| - 1..][1..] == [];
  }

  /** `order` is the library's doubly linked list, front first. */
  class Cache<V> {
    const capacity: int
    var items: map<string, Element<V>>
    var order: seq<Element<V>>
    ghost var contents: seq<Entry<V>>

    /** The map and the list are two views of the same elements, and no key is listed twice. */
    ghost predicate Valid()
      reads this, order
    {
      && |order| <= Bound(capacity)
      && |contents| == |order|
      && (forall i | 0 <= i < |order| :: contents[i] == Entry(order[i].key, order[i].value))
      && (forall i | 0 <= i < |order| :: order[i].key in items && items[order[i].key] == order[i])
      && items.Keys == Keys(contents)
      && KeysDistinct(contents)
    }

    constructor (capacity: int)
      ensures Valid() && contents == [] && this.capacity == capacity
    {
      this.capacity := capacity;
      items, order, contents := map[], [], [];
    }

    /** The map sends every key to the one place of the list that has it. */
    lemma MapAndListAgree(key: string, i: nat, j: nat)
      requires Valid()
      ensures key in items <==> exists k :: 0 <= k < |order| && order[k].key == key
      ensures key in items ==> items[key] in order && items[key].key == key
      ensures i < j < |order| ==> order[i] != order[j] && order[i].key != order[j].key
    {
      if key in items {
        var k := KeyPosition(contents, key);
        assert order[k].key == key;
      }
      if i < j < |order| {
        KeysSplit(contents, j);
        assert contents[j] == contents[j..][0] && contents[i] == contents[..j][i];
        KeyIn(contents[..j], i);
      }
    }

    lemma {:induction false} KeyIn(c: seq<Entry<V>>, i: nat)
      requires i < |c|
      ensures c[i].key in Keys(c)
    {
      if i > 0 {
        KeyIn(c[1..], i - 1);
      }
    }

    method Get(key: string) returns (value: Option<V>)
      requires Valid()
      ensures value.Some? <==> key in Keys(contents)
      ensures value.Some? ==> Entry(key, value.value) in contents
    {
      if key in items {
        ghost var k := KeyPosition(contents, key);
        assert contents[k] == Entry(key, items[key].value);
        value := Some(items[key].value);
      } else {
        value := None;
      }
    }

    method Set(key: string, value: V)
      requires Valid()
      modifies this, order
      ensures Valid() && forall n | n in order :: n in old(order) || fresh(n)
      ensures contents == Write(old(contents), capacity, Entry(key, value))
    {
      if key in items {
        MapAndListAgree(key, 0, 0);
        Refresh(key, value);
        return;
      }
      if |order| >= capacity && order != [] {
        DropOldest();
      }
      PushFront(key, value);
    }

    /** The element of a known key goes to the front and takes the new value. */
    method Refresh(key: string, value: V)
      requires Valid() && key in items
      modifies this`order, this`contents, items[key]
      ensures Valid() && forall n | n in order :: n in old(order)
      ensures contents == [Entry(key, value)] + Without(old(contents), key)
    {
      MapAndListAgree(key, 0, 0);
      var k :| 0 <= k < |order| && order[k] == items[key];
      MoveToFront(k);
      SetFrontValue(value);
    }

    method MoveToFront(k: nat)
      requires Valid() && k < |order|
      modifies this`order, this`contents
      ensures Valid() && order == [old(order)[k]] + (old(order)[..k] + old(order)[k + 1..])
      ensures contents == [old(contents)[k]] + Without(old(contents), old(order)[k].key)
    {
      ghost var key := order[k].key;
      WithoutAt(contents, key, k);
      WithoutKeys(contents, key);
      order := [order[k]] + (order[..k] + order[k + 1..]);
      contents := [contents[k]] + Without(contents, key);
      assert contents[1..] == Without(old(contents), key);
    }

    method SetFrontValue(value: V)
      requires Valid() && order != []
      modifies this`contents, order[0]
      ensures Valid() && contents == [Entry(order[0].key, value)] + old(contents)[1..]
    {
      forall i | 0 < i < |order| ensures order[i] != order[0] {
        MapAndListAgree(order[0].key, 0, i);
      }
      order[0].value := value;
      contents := [Entry(order[0].key, value)] + contents[1..];
      assert contents[1..] == old(contents)[1..];
    }

    method PushFront(key: string, value: V)
      requires Valid() && key !in items && |order| < Bound(capacity)
      modifies this`order, this`items, this`contents
      ensures Valid() && |order| == |old(order)| + 1 && order[1..] == old(order) && fresh(order[0])
      ensures contents == [Entry(key, value)] + old(contents)
    {
      var element := new Element(key, value);
      order := [element] + order;
      items := items[key := element];
      contents := [Entry(key, value)] + contents;
      assert contents[1..] == old(contents);
    }

    /** Removes the element at the back from the list and from the map. */
    method DropOldest()
      requires Valid() && order != []
      modifies this`order, this`items, this`contents
      ensures Valid() && order == old(order)[..|old(order)| - 1]
      ensures contents == old(contents)[..|old(order)| - 1]
      ensures items == old(items) - {old(order)[|old(order)| - 1].key}
    {
      LastKey(contents);
      var oldest := order[|order| - 1];
      order := order[..|order| - 1];
      items := items - {oldest.key};
      contents := contents[..|order|];
      forall i | 0 <= i < |order| ensures order[i].key in items {
        assert contents[i].key == order[i].key;
        KeyIn(contents, i);
      }
    }
  }
}
