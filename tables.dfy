/** Generic relational operations on a table held as the sequence of its rows
    in insertion order: primary-key lookup, update by key, filtering and
    ORDER BY ... DESC. */
module Tables {
  import opened Types

  /** Primary keys are unique. */
  ghost predicate UniqueKeys<T>(s: seq<T>, key: T -> Id) {
    forall i, j :: 0 <= i < j < |s| ==> key(s[i]) != key(s[j])
  }

  /** The first row satisfying `p`, in table order. */
  function First<T>(s: seq<T>, p: T -> bool): (r: Option<T>)
    ensures r.None? <==> forall i :: 0 <= i < |s| ==> !p(s[i])
    ensures r.Some? ==> exists i :: 0 <= i < |s| && s[i] == r.value && p(s[i])
                                    && forall j :: 0 <= j < i ==> !p(s[j])
  {
    if s == [] then None
    else if p(s[0]) then Some(s[0])
    else
      var r := First(s[1..], p);
      assert r.Some? ==> exists i :: 1 <= i < |s| && s[i] == r.value && p(s[i])
                                    && forall j :: 1 <= j < i ==> !p(s[j]) by {
        if r.Some? {
          var i :| 0 <= i < |s[1..]| && s[1..][i] == r.value && p(s[1..][i])
                   && forall j :: 0 <= j < i ==> !p(s[1..][j]);
          assert forall j :: 1 <= j < i + 1 ==> s[j] == s[1..][j - 1];
        }
      }
      r
  }

  /** The row whose primary key is `k`, if there is one: the first row carrying
      the key. */
  function Lookup<T>(s: seq<T>, key: T -> Id, k: Id): (r: Option<T>)
    ensures r.Some? ==> r.value in s && key(r.value) == k
    ensures r.None? <==> forall i :: 0 <= i < |s| ==> key(s[i]) != k
  {
    if s == [] then None
    else if key(s[0]) == k then Some(s[0])
    else
      var r := Lookup(s[1..], key, k);
      assert r.None? ==> forall i :: 1 <= i < |s| ==> key(s[i]) != k by {
        if r.None? {
          assert forall i :: 1 <= i < |s| ==> s[i] == s[1..][i - 1];
        }
      }
      r
  }

  /** With unique keys, looking up the key of any row finds that row. */
  lemma {:induction false} LookupAt<T>(s: seq<T>, key: T -> Id, i: nat)
    requires UniqueKeys(s, key)
    requires i < |s|
    ensures Lookup(s, key, key(s[i])) == Some(s[i])
  {
    var r := Lookup(s, key, key(s[i]));
    assert r.Some?;
    var j :| 0 <= j < |s| && s[j] == r.value && key(s[j]) == key(s[i]);
    assert j == i;
  }

  /** An update by key: every row with the key of `row` becomes `row`. */
  function Replace<T>(s: seq<T>, key: T -> Id, row: T): (r: seq<T>)
    ensures |r| == |s|
    ensures forall i :: 0 <= i < |s| ==> r[i] == if key(s[i]) == key(row) then row else s[i]
  {
    seq(|s|, i requires 0 <= i < |s| => if key(s[i]) == key(row) then row else s[i])
  }

  /** Replacing a row keeps every key where it was, so the keys stay unique. */
  lemma ReplaceKeepsKeys<T>(s: seq<T>, key: T -> Id, row: T)
    requires UniqueKeys(s, key)
    ensures UniqueKeys(Replace(s, key, row), key)
    ensures forall i :: 0 <= i < |s| ==> key(Replace(s, key, row)[i]) == key(s[i])
  {
  }

  /** After replacing the row with key `key(row)`, lookups find the new row under
      that key and the old rows under every other key. */
  lemma {:induction false} LookupReplace<T>(s: seq<T>, key: T -> Id, row: T, k: Id)
    ensures Lookup(Replace(s, key, row), key, k) ==
              if k == key(row) && Lookup(s, key, k).Some? then Some(row) else Lookup(s, key, k)
  {
    var s' := Replace(s, key, row);
    if s != [] {
      LookupReplace(s[1..], key, row, k);
      assert Replace(s[1..], key, row) == s'[1..];
    }
  }

  /** An insert with a fresh key keeps the keys unique and is found under its key. */
  lemma InsertFresh<T>(s: seq<T>, key: T -> Id, row: T)
    requires UniqueKeys(s, key)
    requires Lookup(s, key, key(row)).None?
    ensures UniqueKeys(s + [row], key)
    ensures Lookup(s + [row], key, key(row)) == Some(row)
  {
    LookupAt(s + [row], key, |s|);
  }

  /** A filter: the rows satisfying `p`, each as often as in the table, in table order. */
  function Where<T(==, !new)>(s: seq<T>, p: T -> bool): (r: seq<T>)
    ensures forall x :: multiset(r)[x] == if p(x) then multiset(s)[x] else 0
    ensures forall x :: x in r <==> x in s && p(x)
  {
    if s == [] then []
    else
      var rest := Where(s[1..], p);
      assert s == [s[0]] + s[1..];
      if p(s[0]) then [s[0]] + rest else rest
  }

  /** An ORDER BY key of one or two columns, both descending. */
  datatype Rank = Rank(major: real, minor: real)

  /** `a` may be listed before `b` under `ORDER BY major DESC, minor DESC`. */
  predicate Outranks(a: Rank, b: Rank) {
    a.major > b.major || (a.major == b.major && a.minor >= b.minor)
  }

  predicate SortedDesc<T>(s: seq<T>, rank: T -> Rank) {
    forall i, j :: 0 <= i < j < |s| ==> Outranks(rank(s[i]), rank(s[j]))
  }

  /** A row that outranks every row of a sorted sequence may head it. */
  lemma ConsSorted<T>(h: T, rest: seq<T>, rank: T -> Rank)
    requires SortedDesc(rest, rank)
    requires forall k :: 0 <= k < |rest| ==> Outranks(rank(h), rank(rest[k]))
    ensures SortedDesc([h] + rest, rank)
  {
    var r := [h] + rest;
    forall i, j | 0 <= i < j < |r| ensures Outranks(rank(r[i]), rank(r[j])) {
      assert r[j] == rest[j - 1];
      if i > 0 {
        assert r[i] == rest[i - 1];
      }
    }
  }

  /** The head of a sorted sequence outranks every row of a permutation of its tail
      with one row added, when it outranks that row too. */
  lemma HeadOutranks<T>(s: seq<T>, x: T, rest: seq<T>, rank: T -> Rank)
    requires s != [] && SortedDesc(s, rank)
    requires multiset(rest) == multiset(s[1..]) + multiset{x}
    requires Outranks(rank(s[0]), rank(x))
    ensures forall k :: 0 <= k < |rest| ==> Outranks(rank(s[0]), rank(rest[k]))
  {
    forall k | 0 <= k < |rest| ensures Outranks(rank(s[0]), rank(rest[k])) {
      var y := rest[k];
      assert y in multiset(rest);
      if y != x {
        assert y in multiset(s[1..]);
        var m :| 0 <= m < |s[1..]| && s[1..][m] == y;
        assert s[m + 1] == y;
      }
    }
  }

  function InsertDesc<T(==)>(x: T, s: seq<T>, rank: T -> Rank): (r: seq<T>)
    requires SortedDesc(s, rank)
    ensures multiset(r) == multiset(s) + multiset{x}
    ensures SortedDesc(r, rank)
  {
    if s == [] then [x]
    else if Outranks(rank(x), rank(s[0])) then
      ConsSorted(x, s, rank);
      [x] + s
    else
      var rest := InsertDesc(x, s[1..], rank);
      assert s == [s[0]] + s[1..];
      HeadOutranks(s, x, rest, rank);
      ConsSorted(s[0], rest, rank);
      [s[0]] + rest
  }

  /** `ORDER BY ... DESC`: a permutation of the rows in which no row outranks an earlier one. */
  function SortDesc<T(==)>(s: seq<T>, rank: T -> Rank): (r: seq<T>)
    ensures multiset(r) == multiset(s)
    ensures SortedDesc(r, rank)
  {
    if s == [] then []
    else
      assert s == [s[0]] + s[1..];
      InsertDesc(s[0], SortDesc(s[1..], rank), rank)
  }

  /** A filtered query ordered by `rank`, highest first. */
  function Query<T(==, !new)>(s: seq<T>, p: T -> bool, rank: T -> Rank): (r: seq<T>)
    ensures forall x :: multiset(r)[x] == if p(x) then multiset(s)[x] else 0
    ensures forall x :: x in r <==> x in s && p(x)
    ensures SortedDesc(r, rank)
    ensures forall i, j :: 0 <= i < j < |r| ==> rank(r[i]).major >= rank(r[j]).major
  {
    var r := SortDesc(Where(s, p), rank);
    assert forall x :: x in r <==> x in multiset(r);
    assert forall i, j :: 0 <= i < j < |r| ==> rank(r[i]).major >= rank(r[j]).major by {
      forall i, j | 0 <= i < j < |r| ensures rank(r[i]).major >= rank(r[j]).major {
        assert Outranks(rank(r[i]), rank(r[j]));
      }
    }
    r
  }
}
