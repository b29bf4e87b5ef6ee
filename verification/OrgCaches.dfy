/**
 `makeOrgCache` (packages/core/src/kv.ts:125-161): an insertion-ordered map under joined string keys, which behaves as a
 bounded first-in-first-out map on pairs of an org and a name.
 */
module OrgCaches {
  import opened Plan
  import Text

  type Pair = (string, string)

  // ---- a bounded FIFO map ----

  /** `order`: the keys, oldest first. */
  datatype Fifo<V> = Fifo(order: seq<Pair>, values: map<Pair, V>)

  predicate Distinct<T(==)>(s: seq<T>) {
    forall i, j :: 0 <= i < j < |s| ==> s[i] != s[j]
  }

  ghost predicate Sound<V>(f: Fifo<V>) {
    && Distinct(f.order)
    && forall pair :: pair in f.order <==> pair in f.values
  }

  /** How many entries a bound leaves room for: the entry just stored stays even under a bound below one. */
  function Room(max: int): int {
    if max < 1 then 1 else max
  }

  predicate Bounded<V>(f: Fifo<V>, max: Option<int>) {
    max.Some? ==> |f.order| <= Room(max.value)
  }

  function Without<T(==)>(s: seq<T>, x: T): seq<T> {
    if s == [] then [] else if s[0] == x then Without(s[1..], x) else [s[0]] + Without(s[1..], x)
  }

  function Find<V>(f: Fifo<V>, pair: Pair): Option<V> {
    if pair in f.values then Some(f.values[pair]) else None
  }

  /** Whether storing a value drops the oldest entry first. */
  predicate Evicts<V>(f: Fifo<V>, max: Option<int>, pair: Pair) {
    max.Some? && pair !in f.values && |f.order| >= max.value && f.order != []
  }

  function Put<V>(f: Fifo<V>, max: Option<int>, pair: Pair, value: V): Fifo<V> {
    var g := if Evicts(f, max, pair) then Fifo(f.order[1..], f.values - {f.order[0]}) else f;
    Fifo(if pair in f.values then g.order else g.order + [pair], g.values[pair := value])
  }

  function Remove<V>(f: Fifo<V>, pair: Pair): Fifo<V> {
    Fifo(Without(f.order, pair), f.values - {pair})
  }

  lemma {:induction false} WithoutHas<T>(s: seq<T>, x: T, y: T)
    ensures y in Without(s, x) <==> y in s && y != x
  {
    if s != [] {
      WithoutHas(s[1..], x, y);
    }
  }

  lemma {:induction false} WithoutIsDistinct<T>(s: seq<T>, x: T)
    requires Distinct(s)
    ensures Distinct(Without(s, x))
  {
    if s != [] {
      WithoutIsDistinct(s[1..], x);
      WithoutHas(s[1..], x, s[0]);
      assert s[0] !in s[1..];
    }
  }

  /**
   What storing does: the bound is kept, the value is found, only the oldest entry goes and only for a new key when the
   cache is full, an overwritten entry keeps its age, and a new one is the youngest.
   */
  lemma PutIsBoundedFifo<V>(f: Fifo<V>, max: Option<int>, pair: Pair, value: V)
    requires Sound(f) && Bounded(f, max)
    ensures var g := Put(f, max, pair, value);
            && Sound(g) && Bounded(g, max)
            && Find(g, pair) == Some(value)
            && (forall other :: other != pair ==>
                  Find(g, other) == if Evicts(f, max, pair) && other == f.order[0] then None else Find(f, other))
            && (pair in f.values ==> g.order == f.order)
            && (pair !in f.values ==> g.order == f.order[(if Evicts(f, max, pair) then 1 else 0)..] + [pair])
  {
    PutKeepsSound(f, max, pair, value);
    assert Evicts(f, max, pair) ==> f.order[0] in f.order;
  }

  lemma PutKeepsSound<V>(f: Fifo<V>, max: Option<int>, pair: Pair, value: V)
    requires Sound(f)
    ensures Sound(Put(f, max, pair, value))
  {
    if Evicts(f, max, pair) {
      assert f.order == [f.order[0]] + f.order[1..];
      assert f.order[0] !in f.order[1..];
    }
    var g := Put(f, max, pair, value);
    assert forall p :: p in g.order <==> p in g.values;
  }

  lemma {:induction false} WithoutIsNoLonger<T>(s: seq<T>, x: T)
    ensures |Without(s, x)| <= |s|
  {
    if s != [] {
      WithoutIsNoLonger(s[1..], x);
    }
  }

  /** Removing an entry keeps the ages of the others: the older ones stay in front of it, the younger ones behind. */
  lemma {:induction false} WithoutKeepsTheOrder<T>(s: seq<T>, x: T, i: nat)
    requires Distinct(s)
    ensures x !in s ==> Without(s, x) == s
    ensures i < |s| && s[i] == x ==> Without(s, x) == s[..i] + s[i + 1..]
    decreases |s|
  {
    if s != [] {
      WithoutKeepsTheOrder(s[1..], x, if i > 0 then i - 1 else 0);
      assert s == [s[0]] + s[1..];
    }
  }

  /** Removing an entry keeps the bound and every other entry. */
  lemma RemoveIsBoundedFifo<V>(f: Fifo<V>, max: Option<int>, pair: Pair)
    requires Sound(f) && Bounded(f, max)
    ensures var g := Remove(f, pair);
            && Sound(g) && Bounded(g, max)
            && forall other :: Find(g, other) == if other == pair then None else Find(f, other)
  {
    RemoveKeepsSound(f, pair);
    WithoutIsNoLonger(f.order, pair);
  }

  lemma RemoveKeepsSound<V>(f: Fifo<V>, pair: Pair)
    requires Sound(f)
    ensures Sound(Remove(f, pair))
  {
    WithoutIsDistinct(f.order, pair);
    var g := Remove(f, pair);
    forall p: Pair ensures p in g.order <==> p in g.values {
      WithoutHas(f.order, pair, p);
    }
  }

  /** A run of stored values. */
  function PutAll<V>(f: Fifo<V>, max: Option<int>, puts: seq<(Pair, V)>): Fifo<V>
    decreases |puts|
  {
    if puts == [] then f else PutAll(Put(f, max, puts[0].0, puts[0].1), max, puts[1..])
  }

  /**
   How long an entry lives: with `i` entries older than it, it outlives any `i` further stores of other keys, whatever
   they are, even when the cache is full; so a new entry outlives `max - 1` of them.
   */
  lemma {:induction false} EntriesOutliveOlderOnes<V>(
    f: Fifo<V>, max: int, pair: Pair, i: nat, puts: seq<(Pair, V)>)
    requires max >= 1 && Sound(f) && Bounded(f, Some(max))
    requires i < |f.order| && f.order[i] == pair
    requires |puts| <= i + (max - |f.order|)
    requires forall j :: 0 <= j < |puts| ==> puts[j].0 != pair
    ensures Find(PutAll(f, Some(max), puts), pair) == Find(f, pair)
    decreases |puts|
  {
    if puts != [] {
      var g := Put(f, Some(max), puts[0].0, puts[0].1);
      PutIsBoundedFifo(f, Some(max), puts[0].0, puts[0].1);
      if Evicts(f, Some(max), puts[0].0) {
        assert g.order[i - 1] == pair;
        EntriesOutliveOlderOnes(g, max, pair, i - 1, puts[1..]);
      } else {
        assert g.order[i] == pair;
        EntriesOutliveOlderOnes(g, max, pair, i, puts[1..]);
      }
    }
  }

  /** And no longer: with `i` entries older than it in a full cache, `i + 1` stores of new keys drop it. */
  lemma {:induction false} EntriesGoInTheirTurn<V>(
    f: Fifo<V>, max: int, pair: Pair, i: nat, puts: seq<(Pair, V)>)
    requires max >= 1 && Sound(f) && |f.order| == max
    requires i < max && f.order[i] == pair
    requires |puts| == i + 1
    requires forall j :: 0 <= j < |puts| ==> puts[j].0 !in f.values
    requires forall j, k :: 0 <= j < k < |puts| ==> puts[j].0 != puts[k].0
    ensures Find(PutAll(f, Some(max), puts), pair) == None
    decreases |puts|
  {
    var g := Put(f, Some(max), puts[0].0, puts[0].1);
    PutIsBoundedFifo(f, Some(max), puts[0].0, puts[0].1);
    if i == 0 {
      assert PutAll(g, Some(max), puts[1..]) == g;
    } else {
      assert g.order[i - 1] == pair;
      EntriesGoInTheirTurn(g, max, pair, i - 1, puts[1..]);
    }
  }

  // ---- the cache ----

  datatype Entry<V> = Entry(org: string, name: string, value: V)

  predicate IsOrg(org: string) {
    '\0' !in org
  }

  /** The joined key: org ids are free of U+0000, so its first one shows where the name starts. */
  function JoinedKey(org: string, name: string): string {
    org + ['\0'] + name
  }

  lemma JoinedKeysAreInjective(org: string, name: string, other: string, otherName: string)
    requires IsOrg(org) && IsOrg(other)
    ensures JoinedKey(org, name) == JoinedKey(other, otherName) <==> org == other && name == otherName
  {
    if JoinedKey(org, name) == JoinedKey(other, otherName) {
      Text.FirstSeparatorDecides(org, name, other, otherName, '\0');
    }
  }

  function KeyOf(pair: Pair): string {
    JoinedKey(pair.0, pair.1)
  }

  function Joined(pairs: seq<Pair>): (keys: seq<string>)
    ensures |keys| == |pairs| && forall i :: 0 <= i < |keys| ==> keys[i] == KeyOf(pairs[i])
  {
    seq(|pairs|, i requires 0 <= i < |pairs| => KeyOf(pairs[i]))
  }

  /** The entries under joined keys stand for the values under pairs. */
  ghost predicate Represents<V>(entries: map<string, Entry<V>>, values: map<Pair, V>) {
    && (forall pair :: pair in values ==>
          IsOrg(pair.0) && KeyOf(pair) in entries && entries[KeyOf(pair)] == Entry(pair.0, pair.1, values[pair]))
    && (forall key :: key in entries ==>
          (entries[key].org, entries[key].name) in values && key == KeyOf((entries[key].org, entries[key].name)))
  }

  lemma HasExactly<V>(entries: map<string, Entry<V>>, values: map<Pair, V>, pair: Pair)
    requires Represents(entries, values) && IsOrg(pair.0)
    ensures KeyOf(pair) in entries <==> pair in values
  {
    var key := KeyOf(pair);
    if key in entries {
      JoinedKeysAreInjective(pair.0, pair.1, entries[key].org, entries[key].name);
    }
  }

  lemma OtherKeys<V>(values: map<Pair, V>, pair: Pair)
    requires IsOrg(pair.0) && forall other :: other in values ==> IsOrg(other.0)
    ensures forall other :: other in values && other != pair ==> KeyOf(other) != KeyOf(pair)
  {
    forall other | other in values && other != pair ensures KeyOf(other) != KeyOf(pair) {
      JoinedKeysAreInjective(pair.0, pair.1, other.0, other.1);
    }
  }

  lemma SetRepresents<V>(entries: map<string, Entry<V>>, values: map<Pair, V>, pair: Pair, value: V)
    requires Represents(entries, values) && IsOrg(pair.0)
    ensures Represents(entries[KeyOf(pair) := Entry(pair.0, pair.1, value)], values[pair := value])
  {
    OtherKeys(values, pair);
  }

  lemma DeleteRepresents<V>(entries: map<string, Entry<V>>, values: map<Pair, V>, pair: Pair)
    requires Represents(entries, values) && IsOrg(pair.0)
    ensures Represents(entries - {KeyOf(pair)}, values - {pair})
  {
    OtherKeys(values, pair);
    HasExactly(entries, values, pair);
  }

  lemma {:induction false} JoinedWithout(pairs: seq<Pair>, pair: Pair)
    requires IsOrg(pair.0) && forall other :: other in pairs ==> IsOrg(other.0)
    ensures Joined(Without(pairs, pair)) == Without(Joined(pairs), KeyOf(pair))
  {
    if pairs != [] {
      JoinedKeysAreInjective(pairs[0].0, pairs[0].1, pair.0, pair.1);
      JoinedWithout(pairs[1..], pair);
      assert Joined(pairs)[1..] == Joined(pairs[1..]);
    }
  }

  lemma JoinedParts(pairs: seq<Pair>, pair: Pair)
    ensures Joined(pairs + [pair]) == Joined(pairs) + [KeyOf(pair)]
    ensures pairs != [] ==> Joined(pairs[1..]) == Joined(pairs)[1..]
  {
  }

  /** Storing under joined keys: what goes and where the new entry is are those of the FIFO map. */
  lemma SetRefines<V>(entries: map<string, Entry<V>>, f: Fifo<V>, max: Option<int>, pair: Pair, value: V)
    requires Sound(f) && Represents(entries, f.values) && IsOrg(pair.0)
    ensures KeyOf(pair) in entries <==> pair in f.values
    ensures var g := Put(f, max, pair, value);
            var order := if Evicts(f, max, pair) then Joined(f.order)[1..] else Joined(f.order);
            Joined(g.order) == if pair in f.values then order else order + [KeyOf(pair)]
    ensures var g := Put(f, max, pair, value);
            var left := if Evicts(f, max, pair) then entries - {KeyOf(f.order[0])} else entries;
            Represents(left[KeyOf(pair) := Entry(pair.0, pair.1, value)], g.values)
  {
    HasExactly(entries, f.values, pair);
    JoinedParts(f.order, pair);
    if Evicts(f, max, pair) {
      assert f.order[0] in f.order;
      JoinedParts(f.order[1..], pair);
      DeleteRepresents(entries, f.values, f.order[0]);
      SetRepresents(entries - {KeyOf(f.order[0])}, f.values - {f.order[0]}, pair, value);
    } else {
      SetRepresents(entries, f.values, pair, value);
    }
  }

  class OrgCache<V> {
    const max: Option<int>
    /** The insertion-ordered map. */
    var entries: map<string, Entry<V>>
    var order: seq<string>
    /** The FIFO map it behaves as. */
    ghost var fifo: Fifo<V>

    ghost predicate Valid()
      reads this
    {
      Sound(fifo) && Bounded(fifo, max) && order == Joined(fifo.order) && Represents(entries, fifo.values)
    }

    constructor (max: Option<int>)
      ensures Valid() && fifo == Fifo([], map[]) && this.max == max
    {
      this.max := max;
      entries, order, fifo := map[], [], Fifo([], map[]);
    }

    method Get(org: string, name: string) returns (value: Option<V>)
      requires Valid() && IsOrg(org)
      ensures value == Find(fifo, (org, name))
    {
      HasExactly(entries, fifo.values, (org, name));
      var key := JoinedKey(org, name);
      value := if key in entries then Some(entries[key].value) else None;
    }

    method Size() returns (size: nat)
      requires Valid()
      ensures size == |fifo.order| && (max.Some? ==> size <= Room(max.value))
    {
      size := |order|;
    }

    /** Stores as the FIFO map does; that the bound holds afterwards is part of `Valid`. */
    method Set(org: string, name: string, value: V)
      requires Valid() && IsOrg(org)
      modifies this
      ensures Valid() && fifo == Put(old(fifo), max, (org, name), value)
      ensures max.Some? ==> |fifo.order| <= Room(max.value)
    {
      PutIsBoundedFifo(fifo, max, (org, name), value);
      SetRefines(entries, fifo, max, (org, name), value);
      var key := JoinedKey(org, name);
      var isNew := key !in entries;
      if max.Some? && isNew && |order| >= max.value && order != [] {
        entries, order := entries - {order[0]}, order[1..];
      }
      if isNew {
        order := order + [key];
      }
      entries := entries[key := Entry(org, name, value)];
      fifo := Put(fifo, max, (org, name), value);
    }

    method Delete(org: string, name: string)
      requires Valid() && IsOrg(org)
      modifies this
      ensures Valid() && fifo == Remove(old(fifo), (org, name))
    {
      ghost var pair := (org, name);
      DeleteRepresents(entries, fifo.values, pair);
      RemoveIsBoundedFifo(fifo, max, pair);
      JoinedWithout(fifo.order, pair);
      ghost var after := Remove(fifo, pair);
      entries, order := entries - {JoinedKey(org, name)}, Without(order, JoinedKey(org, name));
      fifo := after;
    }

    method Clear()
      modifies this
      ensures Valid() && fifo == Fifo([], map[])
    {
      entries, order, fifo := map[], [], Fifo([], map[]);
    }
  }
}
