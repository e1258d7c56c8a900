/** Route keys of projects (apps/workspaces/services.py,
    _unique_project_route_key). */
module RouteKeys {
  import opened Text

  const MAX_BASE := 120

  /** `slugify(name)[:120] or "projekt"`; the slug itself is the caller's. */
  function Base(slug: string): string {
    var cut := if |slug| <= MAX_BASE then slug else slug[..MAX_BASE];
    if cut == "" then "projekt" else cut
  }

  /** The candidates in the order they are tried: base, base-2, base-3, ... */
  function Candidate(base: string, k: nat): string {
    if k < 2 then base else base + "-" + Decimal(k)
  }

  lemma CandidatesDistinct(base: string, j: nat, k: nat)
    requires 1 <= j < k
    ensures Candidate(base, j) != Candidate(base, k)
  {
    if j < 2 {
      assert |Candidate(base, k)| > |base|;
    } else if Candidate(base, j) == Candidate(base, k) {
      assert Candidate(base, j)[|base| + 1..] == Decimal(j);
      assert Candidate(base, k)[|base| + 1..] == Decimal(k);
      DecimalInjective(j, k);
    }
  }

  /** The search from candidate k on. Each taken candidate can be met only
      once, so the search ends for every finite set of taken keys. */
  function Search(taken: set<string>, base: string, k: nat): (key: string)
    ensures exists j :: k <= j && key == Candidate(base, j)
    decreases taken
  {
    if Candidate(base, k) in taken then
      var key := Search(taken - {Candidate(base, k)}, base, k + 1);
      assert exists j :: k + 1 <= j && key == Candidate(base, j);
      key
    else
      assert Candidate(base, k) == Candidate(base, k);
      Candidate(base, k)
  }

  lemma {:induction false} SearchFindsFree(taken: set<string>, base: string, k: nat)
    requires k >= 1
    ensures Search(taken, base, k) !in taken
    decreases taken
  {
    if Candidate(base, k) in taken {
      SearchFindsFree(taken - {Candidate(base, k)}, base, k + 1);
      var key := Search(taken - {Candidate(base, k)}, base, k + 1);
      var j :| k + 1 <= j && key == Candidate(base, j);
      CandidatesDistinct(base, k, j);
    }
  }

  function UniqueKey(taken: set<string>, slug: string): string {
    Search(taken, Base(slug), 1)
  }

  ghost predicate Tried(base: string, n: nat, key: string) {
    exists j :: 1 <= j < n && key == Candidate(base, j)
  }

  lemma NotTriedYet(base: string, n: nat)
    requires n >= 1
    ensures !Tried(base, n, Candidate(base, n))
  {
    if Tried(base, n, Candidate(base, n)) {
      var j :| 1 <= j < n && Candidate(base, n) == Candidate(base, j);
      CandidatesDistinct(base, j, n);
    }
  }

  lemma TriedOneMore(base: string, n: nat, key: string)
    requires n >= 1
    ensures Tried(base, n + 1, key) <==> Tried(base, n, key) || key == Candidate(base, n)
  {
  }

  lemma NothingTried(base: string)
    ensures forall key :: !Tried(base, 1, key)
  {
  }

  // One round of the search: the tried candidate leaves the set of keys that
  // can still be met.
  lemma SearchRound(taken: set<string>, rest: set<string>, base: string, n: nat)
    requires n >= 1 && Candidate(base, n) in taken
    requires forall x :: x in rest <==> x in taken && !Tried(base, n, x)
    ensures Candidate(base, n) in rest
    ensures forall x :: x in rest - {Candidate(base, n)} <==> x in taken && !Tried(base, n + 1, x)
    ensures Search(rest, base, n) == Search(rest - {Candidate(base, n)}, base, n + 1)
  {
    NotTriedYet(base, n);
    forall x
      ensures x in rest - {Candidate(base, n)} <==> x in taken && !Tried(base, n + 1, x)
    {
      TriedOneMore(base, n, x);
    }
  }

  lemma SearchStops(taken: set<string>, rest: set<string>, base: string, n: nat)
    requires Candidate(base, n) !in taken
    requires forall x :: x in rest <==> x in taken && !Tried(base, n, x)
    ensures Search(rest, base, n) == Candidate(base, n)
  {
    assert Candidate(base, n) !in rest;
  }

  lemma FirstCandidate(base: string)
    ensures Candidate(base, 1) == base
  {
  }

  lemma LaterCandidate(base: string, n: nat)
    requires n >= 2
    ensures Candidate(base, n) == base + "-" + Decimal(n)
  {
    hide Decimal;
  }

  /** The key that is returned is free, and every candidate before it is taken. */
  method FindRouteKey(taken: set<string>, slug: string) returns (candidate: string)
    ensures candidate == UniqueKey(taken, slug) && candidate !in taken
    ensures exists n :: n >= 1 && candidate == Candidate(Base(slug), n)
                        && forall j :: 1 <= j < n ==> Candidate(Base(slug), j) in taken
  {
    hide Base, Tried, Search, Decimal, Candidate;
    SearchFindsFree(taken, Base(slug), 1);
    var base := Base(slug);
    FirstCandidate(base);
    candidate := base;
    var counter := 2;
    NothingTried(base);
    ghost var rest := taken;
    while candidate in taken
      invariant counter >= 2 && candidate == Candidate(base, counter - 1)
      invariant forall j :: 1 <= j < counter - 1 ==> Candidate(base, j) in taken
      invariant forall x :: x in rest <==> x in taken && !Tried(base, counter - 1, x)
      invariant UniqueKey(taken, slug) == Search(rest, base, counter - 1)
      decreases rest
    {
      SearchRound(taken, rest, base, counter - 1);
      LaterCandidate(base, counter);
      rest := rest - {candidate};
      candidate := base + "-" + Decimal(counter);
      counter := counter + 1;
    }
    SearchStops(taken, rest, base, counter - 1);
  }
}
