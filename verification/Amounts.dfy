/** Quota amounts: a pair (active secrets, file bytes), and sums of such pairs over finite maps. */
module Amounts {

  datatype Dim = Secrets | Bytes

  datatype Amount = Amount(secrets: int, bytes: int) {

    function Plus(that: Amount): Amount {
      Amount(secrets + that.secrets, bytes + that.bytes)
    }

    function Minus(that: Amount): Amount {
      Amount(secrets - that.secrets, bytes - that.bytes)
    }

    /** The component-wise maximum. */
    function Join(that: Amount): Amount {
      Amount(if secrets < that.secrets then that.secrets else secrets,
             if bytes < that.bytes then that.bytes else bytes)
    }

    predicate Leq(that: Amount) {
      secrets <= that.secrets && bytes <= that.bytes
    }
  }

  function Zero(): Amount {
    Amount(0, 0)
  }

  ghost function Choose<K>(keys: set<K>): (k: K)
    requires keys != {}
    ensures k in keys
  {
    var k :| k in keys;
    k
  }

  /** The map with the given keys and values, built one entry at a time. */
  ghost function Tabulate<K, V>(keys: set<K>, value: K -> V): map<K, V> {
    if keys == {} then map[]
    else
      var k := Choose(keys);
      Tabulate(keys - {k}, value)[k := value(k)]
  }

  lemma {:induction false} Tabulated<K, V>(keys: set<K>, value: K -> V)
    ensures Tabulate(keys, value).Keys == keys
    ensures forall k :: k in keys ==> Tabulate(keys, value)[k] == value(k)
    decreases keys
  {
    if keys != {} {
      Tabulated(keys - {Choose(keys)}, value);
    }
  }

  /** The sum of all values of a map. */
  ghost function Total<K>(m: map<K, Amount>): Amount
    decreases |m|
  {
    if m.Keys == {} then Zero()
    else
      var k := Choose(m.Keys);
      assert (m - {k}).Keys == m.Keys - {k};
      m[k].Plus(Total(m - {k}))
  }

  lemma TotalEmpty<K>(m: map<K, Amount>)
    requires m.Keys == {}
    ensures Total(m) == Zero()
  {
  }

  /** A sum does not depend on the order in which the entries are taken. */
  lemma {:induction false} TotalTake<K>(m: map<K, Amount>, k: K)
    requires k in m
    ensures Total(m) == m[k].Plus(Total(m - {k}))
    decreases |m|
  {
    var c := Choose(m.Keys);
    assert (m - {c}).Keys == m.Keys - {c};
    assert (m - {k}).Keys == m.Keys - {k};
    if c != k {
      TotalTake(m - {c}, k);
      TotalTake(m - {k}, c);
      assert m - {c} - {k} == m - {k} - {c};
    }
  }

  function ValueAt<K>(m: map<K, Amount>, k: K): Amount {
    if k in m then m[k] else Zero()
  }

  lemma TotalDrop<K>(m: map<K, Amount>, k: K)
    ensures Total(m) == Total(m - {k}).Plus(ValueAt(m, k))
  {
    hide Total;
    if k in m {
      TotalTake(m, k);
    } else {
      assert m - {k} == m;
    }
  }

  lemma TotalOfOne<K>(m: map<K, Amount>, k: K)
    requires m.Keys - {k} == {}
    ensures Total(m) == ValueAt(m, k)
  {
    hide Total;
    TotalDrop(m, k);
    assert (m - {k}).Keys == m.Keys - {k};
    TotalEmpty(m - {k});
  }

  lemma TotalOfTwo<K>(m: map<K, Amount>, a: K, b: K)
    requires a != b && m.Keys - {a} - {b} == {}
    ensures Total(m) == ValueAt(m, a).Plus(ValueAt(m, b))
  {
    hide Total;
    var one := m - {a};
    TotalDrop(m, a);
    assert one.Keys == m.Keys - {a};
    assert ValueAt(one, b) == ValueAt(m, b);
    TotalOfOne(one, b);
  }

  lemma TotalPut<K>(m: map<K, Amount>, k: K, v: Amount)
    requires k !in m
    ensures Total(m[k := v]) == Total(m).Plus(v)
  {
    TotalTake(m[k := v], k);
    assert m[k := v] - {k} == m;
  }

  ghost predicate Splits<K(!new)>(m: map<K, Amount>, part: map<K, Amount>, rest: map<K, Amount>) {
    && (forall k :: k in m <==> k in part || k in rest)
    && (forall k :: k in part ==> k !in rest && part[k] == m[k])
    && (forall k :: k in rest ==> rest[k] == m[k])
  }

  lemma SplitsNothing<K(!new)>(m: map<K, Amount>, part: map<K, Amount>, rest: map<K, Amount>)
    requires Splits(m, part, rest) && part == map[]
    ensures m == rest
  {
    assert forall k :: k in m <==> k in rest;
  }

  lemma SplitsDrop<K(!new)>(m: map<K, Amount>, part: map<K, Amount>, rest: map<K, Amount>, k: K)
    requires Splits(m, part, rest) && k in part
    ensures Splits(m - {k}, part - {k}, rest)
  {
  }

  /** A sum splits along any partition of the keys. */
  lemma {:induction false} TotalSplit<K(!new)>(m: map<K, Amount>, part: map<K, Amount>, rest: map<K, Amount>)
    requires Splits(m, part, rest)
    ensures Total(m) == Total(part).Plus(Total(rest))
    decreases |part|
  {
    hide Total;
    if part == map[] {
      SplitsNothing(m, part, rest);
      TotalEmpty(part);
    } else {
      var k := Choose(part.Keys);
      assert (part - {k}).Keys == part.Keys - {k};
      TotalTake(part, k);
      TotalTake(m, k);
      SplitsDrop(m, part, rest, k);
      TotalSplit(m - {k}, part - {k}, rest);
    }
  }

  lemma {:induction false} TotalNonnegative<K>(m: map<K, Amount>)
    requires forall k :: k in m ==> Zero().Leq(m[k])
    ensures Zero().Leq(Total(m))
    decreases |m|
  {
    if m != map[] {
      var k := Choose(m.Keys);
      assert (m - {k}).Keys == m.Keys - {k};
      TotalNonnegative(m - {k});
    }
  }

  /** With no negative entries, leaving entries out can only lower a sum. */
  lemma TotalPart<K(!new)>(m: map<K, Amount>, part: map<K, Amount>)
    requires part.Keys <= m.Keys
    requires forall k :: k in part ==> part[k] == m[k]
    requires forall k :: k in m ==> Zero().Leq(m[k])
    ensures Total(part).Leq(Total(m))
  {
    var rest := m - part.Keys;
    assert Splits(m, part, rest);
    TotalSplit(m, part, rest);
    TotalNonnegative(rest);
  }
}
