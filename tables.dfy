/** The in-memory stand-in for a JPA repository: rows by primary key, plus
    the order in which `findAll` lists them. `save` is `Put`, `deleteById`
    is `Remove`, `findById` is `Get`, `findAll` is `Values`. */
module Tables {
  import opened Common

  /** No key is listed twice. */
  ghost predicate Distinct(s: seq<int>) {
    forall i, j :: 0 <= i < j < |s| ==> s[i] != s[j]
  }

  /** `s` with every occurrence of `k` taken out. */
  function Without(s: seq<int>, k: int): (r: seq<int>)
    ensures forall x :: x in r <==> x in s && x != k
    ensures Distinct(s) ==> Distinct(r)
  {
    if s == [] then []
    else
      var rest := Without(s[1..], k);
      if s[0] == k then rest
      else
        assert Distinct(s) ==> s[0] !in s[1..];
        [s[0]] + rest
  }

  /** The rows listed by `keys`, in that order. */
  function RowsOf<T>(keys: seq<int>, rows: map<int, T>): (vs: seq<T>)
    requires forall i :: 0 <= i < |keys| ==> keys[i] in rows
    ensures |vs| == |keys|
    ensures forall i :: 0 <= i < |keys| ==> vs[i] == rows[keys[i]]
  {
    if keys == [] then [] else [rows[keys[0]]] + RowsOf(keys[1..], rows)
  }

  /** A list without repetitions has as many elements as the set of its elements. */
  lemma {:induction false} DistinctCard(s: seq<int>)
    requires Distinct(s)
    ensures |set x | x in s| == |s|
  {
    if s != [] {
      var rest := s[1..];
      assert Distinct(rest);
      DistinctCard(rest);
      assert s[0] !in rest;
      assert (set x | x in s) == {s[0]} + (set x | x in rest);
    }
  }

  datatype Table<T> = Table(rows: map<int, T>, order: seq<int>) {

    /** Every row is listed, exactly once, and only rows are listed. */
    ghost predicate Valid() {
      && (forall i :: 0 <= i < |order| ==> order[i] in rows)
      && (forall k :: k in rows ==> k in order)
      && Distinct(order)
    }

    /** `findById(k)`. */
    function Get(k: int): (r: Option<T>)
      ensures r.Some? <==> k in rows
      ensures r.Some? ==> r.value == rows[k]
    {
      if k in rows then Some(rows[k]) else None
    }

    /** `save(v)` of a row whose key is `k`: overwrite it in place, or list it last. */
    function Put(k: int, v: T): (t: Table<T>)
      requires Valid()
      ensures t.Valid()
      ensures t.rows == rows[k := v]
      ensures k in rows ==> t.order == order
      ensures k !in rows ==> t.order == order + [k]
    {
      if k in rows then Table(rows[k := v], order) else Table(rows[k := v], order + [k])
    }

    /** `deleteById(k)`. */
    function Remove(k: int): (t: Table<T>)
      requires Valid()
      ensures t.Valid()
      ensures t.rows == rows - {k}
      ensures k !in rows ==> t == this
    {
      if k in rows then
        var w := Without(order, k);
        assert forall i :: 0 <= i < |w| ==> w[i] in order && w[i] != k by {
          forall i | 0 <= i < |w| ensures w[i] in order && w[i] != k {
            assert w[i] in w;
          }
        }
        Table(rows - {k}, w)
      else this
    }

    /** `findAll()`: the rows, in listing order. */
    function Values(): (vs: seq<T>)
      requires Valid()
      ensures |vs| == |order|
      ensures forall i :: 0 <= i < |order| ==> vs[i] == rows[order[i]]
    {
      RowsOf(order, rows)
    }

    /** `findAll()` lists every stored row. */
    lemma ListsRow(k: int)
      requires Valid() && k in rows
      ensures rows[k] in Values()
    {
      var i :| 0 <= i < |order| && order[i] == k;
      assert Values()[i] == rows[k];
    }

    /** `findAll()` lists one row per stored key. */
    lemma ListsEveryRow()
      requires Valid()
      ensures |Values()| == |rows|
    {
      DistinctCard(order);
      var listed := set x | x in order;
      forall x | x in listed ensures x in rows.Keys {
        var i :| 0 <= i < |order| && order[i] == x;
      }
      forall x | x in rows.Keys ensures x in listed {
        assert x in order;
      }
      assert listed == rows.Keys;
    }
  }

  function EmptyTable<T>(): (t: Table<T>)
    ensures t.Valid() && t.rows == map[] && t.order == []
  {
    Table(map[], [])
  }
}
