/** The home page (app/page.js): the loaded product list, removing a deleted
    product, the title search and the "No products found" condition. */
module Home {
  import opened Products

  // ---------------------------------------------------------------------
  // Array.prototype.filter.

  /** `s.filter(keep)`. */
  function Filter<T(!new)>(s: seq<T>, keep: T -> bool): (r: seq<T>)
    ensures |r| <= |s|
    ensures forall x :: x in r <==> x in s && keep(x)
    ensures forall x :: multiset(r)[x] == if keep(x) then multiset(s)[x] else 0
  {
    if s == [] then []
    else
      var rest := Filter(s[1..], keep);
      assert s == [s[0]] + s[1..];
      if keep(s[0]) then [s[0]] + rest else rest
  }

  /** `a` is `b` with some elements left out, the rest in their order. */
  predicate IsSubsequence<T(==)>(a: seq<T>, b: seq<T>)
    decreases |b|
  {
    if a == [] then true
    else if b == [] then false
    else if a[0] == b[0] then IsSubsequence(a[1..], b[1..])
    else IsSubsequence(a, b[1..])
  }

  lemma {:induction false} FilterIsSubsequence<T(!new)>(s: seq<T>, keep: T -> bool)
    ensures IsSubsequence(Filter(s, keep), s)
  {
    if s != [] {
      FilterIsSubsequence(s[1..], keep);
    }
  }

  /** Filtering keeps everything when everything passes. */
  lemma {:induction false} FilterAll<T(!new)>(s: seq<T>, keep: T -> bool)
    requires forall x :: x in s ==> keep(x)
    ensures Filter(s, keep) == s
  {
    if s != [] {
      FilterAll(s[1..], keep);
      assert s == [s[0]] + s[1..];
    }
  }

  /** Filtering depends only on which elements pass. */
  lemma {:induction false} FilterSameTest<T(!new)>(s: seq<T>, p: T -> bool, q: T -> bool)
    requires forall x :: x in s ==> p(x) == q(x)
    ensures Filter(s, p) == Filter(s, q)
  {
    if s != [] {
      FilterSameTest(s[1..], p, q);
    }
  }

  /** Two filters apply in either order, and together as one. */
  lemma {:induction false} FilterFilter<T(!new)>(s: seq<T>, p: T -> bool, q: T -> bool)
    ensures Filter(Filter(s, p), q) == Filter(s, x => p(x) && q(x))
    ensures Filter(Filter(s, p), q) == Filter(Filter(s, q), p)
  {
    if s != [] {
      FilterFilter(s[1..], p, q);
    }
  }

  // ---------------------------------------------------------------------
  // Case-insensitive substring search.

  /** ASCII lower-casing of one character. */
  function LowerChar(c: char): char
  {
    if 'A' <= c <= 'Z' then (c as int + 32) as char else c
  }

  /** `s.toLowerCase()`, restricted to ASCII letters. */
  function Lower(s: string): (r: string)
    ensures |r| == |s|
    ensures forall i :: 0 <= i < |s| ==> r[i] == LowerChar(s[i])
  {
    if s == [] then [] else [LowerChar(s[0])] + Lower(s[1..])
  }

  lemma LowerIdempotent(s: string)
    ensures Lower(Lower(s)) == Lower(s)
  {
    assert forall i :: 0 <= i < |s| ==> LowerChar(LowerChar(s[i])) == LowerChar(s[i]);
  }

  /** `q` occurs in `s` starting at index `i`. */
  predicate OccursAt(s: string, q: string, i: int)
  {
    0 <= i && i + |q| <= |s| && s[i..i + |q|] == q
  }

  /** `s.includes(q)`: `q` occurs somewhere in `s`. */
  function Includes(s: string, q: string): (r: bool)
    ensures r <==> exists i :: OccursAt(s, q, i)
    decreases |s|
  {
    if |q| > |s| then false
    else if s[..|q|] == q then assert OccursAt(s, q, 0); true
    else
      var r := Includes(s[1..], q);
      assert r ==> exists i :: OccursAt(s, q, i) by {
        if r {
          var j :| OccursAt(s[1..], q, j);
          assert s[1..][j..j + |q|] == s[j + 1..j + 1 + |q|];
          assert OccursAt(s, q, j + 1);
        }
      }
      assert (exists i :: OccursAt(s, q, i)) ==> r by {
        if exists i :: OccursAt(s, q, i) {
          var i :| OccursAt(s, q, i);
          assert i != 0;
          assert s[1..][i - 1..i - 1 + |q|] == s[i..i + |q|];
          assert OccursAt(s[1..], q, i - 1);
        }
      }
      r
  }

  /** The search test applied to each product: its lower-cased title
      includes the lower-cased query. */
  function Matches(p: Product, query: string): (r: bool)
    ensures r <==> exists i :: OccursAt(Lower(p.title()), Lower(query), i)
    ensures query == "" ==> r
  {
    var t, q := Lower(p.title()), Lower(query);
    var r := Includes(t, q);
    assert r ==> exists i :: OccursAt(Lower(p.title()), Lower(query), i) by {
      if r {
        var i :| OccursAt(t, q, i);
        assert OccursAt(Lower(p.title()), Lower(query), i);
      }
    }
    assert (exists i :: OccursAt(Lower(p.title()), Lower(query), i)) ==> r by {
      if exists i :: OccursAt(Lower(p.title()), Lower(query), i) {
        var i :| OccursAt(Lower(p.title()), Lower(query), i);
        assert OccursAt(t, q, i);
      }
    }
    assert query == "" ==> OccursAt(t, q, 0);
    r
  }

  function MatchesQuery(query: string): Product -> bool
  {
    p => Matches(p, query)
  }

  function OtherId(id: int): Product -> bool
  {
    (p: Product) => p.id != id
  }

  /** filteredProducts. */
  function Search(ps: seq<Product>, query: string): (r: seq<Product>)
    ensures forall p :: p in r <==> p in ps && Matches(p, query)
    ensures forall p :: multiset(r)[p] == if Matches(p, query) then multiset(ps)[p] else 0
  {
    Filter(ps, MatchesQuery(query))
  }

  /** handleDelete's update: the products whose id differs from `id`. */
  function Remove(ps: seq<Product>, id: int): (r: seq<Product>)
    ensures forall p :: p in r <==> p in ps && p.id != id
    ensures forall p :: multiset(r)[p] == if p.id != id then multiset(ps)[p] else 0
  {
    Filter(ps, OtherId(id))
  }

  /** The "No products found" message: nothing matches and the query is not
      empty (an empty query is falsy). It shows iff the query is non-empty
      and no title contains it, so an empty catalog with an empty query
      shows no message. */
  function NoResults(ps: seq<Product>, query: string): (r: bool)
    ensures r <==> query != "" && forall p :: p in ps ==> !Matches(p, query)
  {
    var found := Search(ps, query);
    if |found| != 0 then
      assert found[0] in found;
      false
    else
      query != ""
  }

  /** Deleting keeps the other products in their original order. */
  lemma RemoveKeepsOrder(ps: seq<Product>, id: int)
    ensures IsSubsequence(Remove(ps, id), ps)
  {
    FilterIsSubsequence(ps, OtherId(id));
  }

  /** Deleting an id that no product has leaves the list as it is. */
  lemma RemoveAbsent(ps: seq<Product>, id: int)
    requires forall p :: p in ps ==> p.id != id
    ensures Remove(ps, id) == ps
  {
    FilterAll(ps, OtherId(id));
  }

  /** Deleting the same id twice is deleting it once. */
  lemma RemoveTwice(ps: seq<Product>, id: int)
    ensures Remove(Remove(ps, id), id) == Remove(ps, id)
  {
    RemoveAbsent(Remove(ps, id), id);
  }

  /** The search result keeps the products in their original order. */
  lemma SearchKeepsOrder(ps: seq<Product>, query: string)
    ensures IsSubsequence(Search(ps, query), ps)
  {
    FilterIsSubsequence(ps, MatchesQuery(query));
  }

  /** An empty query matches every product. */
  lemma SearchEmptyQuery(ps: seq<Product>)
    ensures Search(ps, "") == ps
  {
    forall p | p in ps ensures Matches(p, "") {
      assert OccursAt(Lower(p.title()), "", 0);
    }
    FilterAll(ps, MatchesQuery(""));
  }

  /** The case of the query does not matter. */
  lemma SearchIgnoresQueryCase(ps: seq<Product>, query: string)
    ensures Search(ps, Lower(query)) == Search(ps, query)
  {
    LowerIdempotent(query);
    FilterSameTest(ps, MatchesQuery(Lower(query)), MatchesQuery(query));
  }

  /** Searching after deleting is deleting from the search result. */
  lemma SearchAfterRemove(ps: seq<Product>, id: int, query: string)
    ensures Search(Remove(ps, id), query) == Remove(Search(ps, query), id)
  {
    FilterFilter(ps, OtherId(id), MatchesQuery(query));
  }

  /** The page component's state. */
  class HomePage {
    var products: seq<Product>
    var loading: bool
    var searchQuery: string

    constructor ()
      ensures products == [] && loading && searchQuery == ""
    {
      products := [];
      loading := true;
      searchQuery := "";
    }

    /** The end of the initial fetch: `Some(data)` when the response was ok
        and parsed, `None` when any step rejected. Either way loading ends. */
    method FetchSettled(outcome: Option<seq<Product>>)
      modifies this`products, this`loading
      ensures !loading
      ensures products == if outcome.Some? then outcome.value else old(products)
    {
      if outcome.Some? {
        products := outcome.value;
      }
      loading := false;
    }

    /** handleDelete, once its DELETE request has completed. */
    method HandleDelete(id: int)
      modifies this`products
      ensures products == Remove(old(products), id)
      ensures forall p :: p in products ==> p.id != id
    {
      products := Remove(products, id);
    }

    /** The search field's onChange. */
    method SetSearchQuery(q: string)
      modifies this`searchQuery
      ensures searchQuery == q
      ensures ShowsNoResults() <==> q != "" && forall p :: p in products ==> !Matches(p, q)
      ensures q == "" ==> !ShowsNoResults()
    {
      searchQuery := q;
    }

    /** The products shown under the current query. */
    function FilteredProducts(): (r: seq<Product>)
      reads this
      ensures forall p :: p in r <==> p in products && Matches(p, searchQuery)
    {
      Search(products, searchQuery)
    }

    /** Whether the page shows "No products found" under the current state. */
    function ShowsNoResults(): (r: bool)
      reads this
      ensures r <==> |FilteredProducts()| == 0 && searchQuery != ""
    {
      NoResults(products, searchQuery)
    }
  }
}
