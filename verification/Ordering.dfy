/** Rows in the order of `order_by("position", "created_at")`. Ids grow with
    creation, so equal positions are listed by id. */
module Ordering {

  type Id = nat

  predicate AtMost(pos: map<Id, nat>, a: Id, b: Id)
    requires a in pos && b in pos
  {
    pos[a] < pos[b] || (pos[a] == pos[b] && a <= b)
  }

  ghost predicate IsFirst(m: Id, ids: set<Id>, pos: map<Id, nat>)
    requires ids <= pos.Keys
  {
    m in ids && forall o <- ids :: AtMost(pos, m, o)
  }

  lemma {:induction false} FirstExists(ids: set<Id>, pos: map<Id, nat>)
    requires ids != {} && ids <= pos.Keys
    ensures exists m :: IsFirst(m, ids, pos)
  {
    var x :| x in ids;
    if ids == {x} {
      assert IsFirst(x, ids, pos);
    } else {
      FirstExists(ids - {x}, pos);
      var m :| IsFirst(m, ids - {x}, pos);
      FirstOfMore(m, x, ids, pos);
    }
  }

  lemma FirstOfMore(m: Id, x: Id, ids: set<Id>, pos: map<Id, nat>)
    requires ids <= pos.Keys && x in ids && IsFirst(m, ids - {x}, pos)
    ensures IsFirst(if AtMost(pos, m, x) then m else x, ids, pos)
  {
    assert forall o <- ids :: o == x || o in ids - {x};
  }

  lemma FirstIsUnique(m: Id, n: Id, ids: set<Id>, pos: map<Id, nat>)
    requires ids <= pos.Keys && IsFirst(m, ids, pos) && IsFirst(n, ids, pos)
    ensures m == n
  {
    assert AtMost(pos, m, n) && AtMost(pos, n, m);
  }

  /** The first row, `.first()` of the ordered query. */
  ghost function First(ids: set<Id>, pos: map<Id, nat>): (m: Id)
    requires ids != {} && ids <= pos.Keys
    ensures IsFirst(m, ids, pos)
  {
    FirstExists(ids, pos);
    var m :| IsFirst(m, ids, pos);
    m
  }

  /** The whole ordered list. */
  ghost function Sorted(ids: set<Id>, pos: map<Id, nat>): (s: seq<Id>)
    requires ids <= pos.Keys
  {
    if ids == {} then [] else
      var m := First(ids, pos);
      [m] + Sorted(ids - {m}, pos)
  }

  /** `s` lists exactly the given rows, in order, each once. */
  ghost predicate Lists(s: seq<Id>, ids: set<Id>, pos: map<Id, nat>)
    requires ids <= pos.Keys
  {
    && (forall x :: x in s <==> x in ids)
    && (forall i, j :: 0 <= i < j < |s| ==> s[i] in pos && s[j] in pos && AtMost(pos, s[i], s[j]) && s[i] != s[j])
  }

  lemma {:induction false} SortedLists(ids: set<Id>, pos: map<Id, nat>)
    requires ids <= pos.Keys
    ensures Lists(Sorted(ids, pos), ids, pos)
  {
    if ids != {} {
      var m := First(ids, pos);
      SortedLists(ids - {m}, pos);
      var rest := Sorted(ids - {m}, pos);
      assert forall x :: x in [m] + rest <==> x == m || x in rest;
      assert forall i :: 0 <= i < |rest| ==> rest[i] in rest;
    }
  }

  /** The ordered list is unique. */
  lemma {:induction false} ListsUnique(s: seq<Id>, ids: set<Id>, pos: map<Id, nat>)
    requires ids <= pos.Keys && Lists(s, ids, pos)
    ensures s == Sorted(ids, pos)
  {
    if s == [] {
      assert forall x :: x in ids <==> x in s;
    } else {
      assert s[0] in s && s[0] in ids;
      var m := First(ids, pos);
      FirstIsHead(s, ids, pos);
      assert forall x :: x in s <==> x == s[0] || x in s[1..];
      assert s[0] !in s[1..];
      ListsUnique(s[1..], ids - {m}, pos);
      assert s == [s[0]] + s[1..];
    }
  }

  lemma FirstIsHead(s: seq<Id>, ids: set<Id>, pos: map<Id, nat>)
    requires ids <= pos.Keys && ids != {} && Lists(s, ids, pos) && s != []
    ensures s[0] == First(ids, pos)
  {
    var m := First(ids, pos);
    assert m in s && s[0] in s;
    var i :| 0 <= i < |s| && s[i] == m;
    assert s[0] in pos && s[i] in pos && AtMost(pos, s[0], s[i]);
  }

  /** Only the positions of the listed rows matter. */
  lemma SortedSame(ids: set<Id>, pos: map<Id, nat>, pos': map<Id, nat>)
    requires ids <= pos.Keys && ids <= pos'.Keys
    requires forall x <- ids :: pos[x] == pos'[x]
    ensures Sorted(ids, pos) == Sorted(ids, pos')
  {
    SortedLists(ids, pos);
    var s := Sorted(ids, pos);
    assert forall i :: 0 <= i < |s| ==> s[i] in s;
    ListsUnique(s, ids, pos');
  }

  /** Rows numbered 0, 1, 2, ... along a list are listed in that order. */
  lemma NumberedIsSorted(s: seq<Id>, ids: set<Id>, pos: map<Id, nat>)
    requires ids <= pos.Keys
    requires forall x :: x in s <==> x in ids
    requires forall i :: 0 <= i < |s| ==> s[i] in pos && pos[s[i]] == i
    ensures Sorted(ids, pos) == s
  {
    ListsUnique(s, ids, pos);
  }

  /** `.first()` of the ordered query. */
  method FirstRow(ids: set<Id>, pos: map<Id, nat>) returns (m: Id)
    requires ids != {} && ids <= pos.Keys
    ensures m == First(ids, pos)
  {
    m :| m in ids;
    var left := ids - {m};
    while left != {}
      invariant m in ids && left <= ids
      invariant forall o <- ids - left :: AtMost(pos, m, o)
      decreases left
    {
      var o :| o in left;
      m := if AtMost(pos, o, m) then o else m;
      assert forall q <- ids - (left - {o}) :: q == o || q in ids - left;
      left := left - {o};
    }
    FirstUnique(ids, pos, m);
  }

  /** The ordered query itself. */
  method OrderedQuery(ids: set<Id>, pos: map<Id, nat>) returns (s: seq<Id>)
    requires ids <= pos.Keys
    ensures s == Sorted(ids, pos)
  {
    s := [];
    var rest := ids;
    while rest != {}
      invariant rest <= ids && s + Sorted(rest, pos) == Sorted(ids, pos)
      decreases rest
    {
      var m := FirstRow(rest, pos);
      s := s + [m];
      rest := rest - {m};
    }
  }

  // ---------- Next free position ----------

  lemma {:induction false} MaximumExists(values: set<nat>)
    requires values != {}
    ensures exists m :: m in values && forall v <- values :: v <= m
  {
    var x :| x in values;
    if values == {x} {
      assert forall v <- values :: v <= x;
    } else {
      MaximumExists(values - {x});
      var m :| m in values - {x} && forall v <- values - {x} :: v <= m;
      var top := if m < x then x else m;
      assert top in values && forall v <- values :: v <= top by {
        forall v <- values
          ensures v <= top
        {
          if v != x {
            assert v in values - {x};
          }
        }
      }
    }
  }

  /** _next_position: one past the maximum, or zero. */
  function NextFree(values: set<nat>): (n: nat)
    ensures forall v <- values :: v < n
    ensures values == {} ==> n == 0
    ensures values != {} ==> n - 1 in values
  {
    if values == {} then 0
    else
      MaximumExists(values);
      var m :| m in values && forall v <- values :: v <= m;
      m + 1
  }

  // ---------- Lists without repetition ----------

  ghost predicate NoDuplicates(s: seq<Id>) {
    forall i, j :: 0 <= i < j < |s| ==> s[i] != s[j]
  }

  function Without(s: seq<Id>, x: Id): seq<Id> {
    if s == [] then []
    else if s[0] == x then Without(s[1..], x)
    else [s[0]] + Without(s[1..], x)
  }

  function InsertAt(s: seq<Id>, at: nat, x: Id): seq<Id>
    requires at <= |s|
  {
    s[..at] + [x] + s[at..]
  }

  lemma {:induction false} WithoutMembers(s: seq<Id>, x: Id)
    ensures forall y :: y in Without(s, x) <==> y in s && y != x
    ensures x !in s ==> Without(s, x) == s
  {
    if s != [] {
      WithoutMembers(s[1..], x);
      assert s == [s[0]] + s[1..];
      forall y
        ensures y in Without(s, x) <==> y in s && y != x
      {
        assert y in s <==> y == s[0] || y in s[1..];
      }
    }
  }

  /** Leaving a row out of the query leaves the order of the others alone. */
  lemma {:induction false} SortedWithout(ids: set<Id>, pos: map<Id, nat>, x: Id)
    requires ids <= pos.Keys
    ensures Sorted(ids - {x}, pos) == Without(Sorted(ids, pos), x)
  {
    if ids != {} {
      var m := First(ids, pos);
      var rest := ids - {m};
      SortedWithout(rest, pos, x);
      assert Sorted(ids, pos)[1..] == Sorted(rest, pos);
      if m == x {
        assert rest - {x} == rest == ids - {x};
      } else {
        assert m in ids - {x};
        FirstUnique(ids - {x}, pos, m);
        assert (ids - {x}) - {m} == rest - {x};
      }
    } else {
      assert ids - {x} == {};
    }
  }

  lemma FirstUnique(ids: set<Id>, pos: map<Id, nat>, m: Id)
    requires ids <= pos.Keys && IsFirst(m, ids, pos)
    ensures First(ids, pos) == m
  {
    FirstIsUnique(m, First(ids, pos), ids, pos);
  }
}
