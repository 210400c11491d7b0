/**
 A plain JavaScript object used as a dictionary, modelled as the ordered list of its
 own (key, value) properties in insertion order.
 */
module Tables {
  import opened Wrappers

  type Table<V> = seq<(string, V)>

  /** The object's own property names, in insertion order (`Object.keys`). */
  function Keys<V>(t: Table<V>): (ks: seq<string>) {
    seq(|t|, i requires 0 <= i < |t| => t[i].0)
  }

  predicate Distinct<T(==)>(xs: seq<T>) {
    forall i, j :: 0 <= i < j < |xs| ==> xs[i] != xs[j]
  }

  /** The position of the first occurrence of `x` (a document-order search). */
  function IndexOf<T(==)>(xs: seq<T>, x: T): (r: Option<nat>)
    ensures r.Some? <==> x in xs
    ensures r.Some? ==> r.value < |xs| && xs[r.value] == x && x !in xs[..r.value]
  {
    if xs == [] then None
    else if xs[0] == x then Some(0)
    else
      match IndexOf(xs[1..], x)
      case None => None
      case Some(i) =>
        assert xs[..i + 1] == [xs[0]] + xs[1..][..i];
        Some(i + 1)
  }

  /** The first occurrence is unique: any position before which `x` does not occur is it. */
  lemma IndexOfFirst<T>(xs: seq<T>, x: T, i: nat)
    requires i < |xs| && xs[i] == x && x !in xs[..i]
    ensures IndexOf(xs, x) == Some(i)
  {
  }

  /**
   Property read `t[k]` restricted to own properties (`hasOwnProperty`): scans the
   properties in order and yields the value of the one named `k`, or None. Its properties
   are the lemmas that follow; a contract here would be unfolded at every read of the
   literal tables.
   */
  function Lookup<V>(t: Table<V>, k: string): (r: Option<V>) {
    if t == [] then None
    else if t[0].0 == k then Some(t[0].1)
    else Lookup(t[1..], k)
  }

  /**
   A read finds the first property named `k`, and finds nothing exactly when `k` is not
   one of the object's keys.
   */
  lemma {:induction false} LookupFirst<V>(t: Table<V>, k: string)
    ensures IndexOf(Keys(t), k).None? ==> Lookup(t, k).None?
    ensures IndexOf(Keys(t), k).Some? ==> Lookup(t, k) == Some(t[IndexOf(Keys(t), k).value].1)
  {
    if t != [] && t[0].0 != k {
      LookupFirst(t[1..], k);
      assert Keys(t) == [t[0].0] + Keys(t[1..]);
    }
  }

  /** A key is found exactly when it is one of the table's keys. */
  lemma LookupFound<V>(t: Table<V>, k: string)
    ensures Lookup(t, k).Some? <==> k in Keys(t)
  {
    LookupFirst(t, k);
  }

  /** In a table without repeated keys, every entry is what a read of its key returns. */
  lemma LookupEntry<V>(t: Table<V>, i: nat)
    requires Distinct(Keys(t))
    requires i < |t|
    ensures Lookup(t, t[i].0) == Some(t[i].1)
  {
    var ks := Keys(t);
    LookupFirst(t, t[i].0);
    assert ks[i] == t[i].0;
    var j := IndexOf(ks, t[i].0).value;
    assert ks[j] == ks[i];
  }

  /**
   Property write `t[k] = v`: overwrites the value of an existing key in place, and adds a
   new key at the end.
   */
  function Assign<V>(t: Table<V>, k: string, v: V): (r: Table<V>)
    ensures k !in Keys(t) ==> r == t + [(k, v)]
    ensures Keys(r) == if k in Keys(t) then Keys(t) else Keys(t) + [k]
  {
    match IndexOf(Keys(t), k)
    case None =>
      var r := t + [(k, v)];
      assert Keys(r) == Keys(t) + [k];
      r
    case Some(i) =>
      var r := t[i := (k, v)];
      assert Keys(r) == Keys(t);
      r
  }

  /** After `t[k] = v`, reading `k` gives `v` and reading any other key is unaffected. */
  lemma AssignLookup<V>(t: Table<V>, k: string, v: V, k': string)
    ensures Lookup(Assign(t, k, v), k') == if k' == k then Some(v) else Lookup(t, k')
  {
    var ks := Keys(t);
    var r := Assign(t, k, v);
    LookupFirst(t, k');
    LookupFirst(r, k');
    match IndexOf(ks, k)
    case None =>
      if k' == k {
        IndexOfFirst(Keys(r), k, |t|);
      } else if k' in ks {
        var j := IndexOf(ks, k').value;
        assert Keys(r)[..j] == ks[..j];
        IndexOfFirst(Keys(r), k', j);
      } else {
        assert k' !in Keys(r);
      }
    case Some(i) =>
      assert r == t[i := (k, v)];
  }
}
